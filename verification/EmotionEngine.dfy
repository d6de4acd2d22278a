/** `EmotionEngine` of app/emotion/engine.py: the state it replaces and the rolling entries it prunes. */
module EmotionEngines {
  import opened Options
  import opened Emotion

  datatype Transition = Transition(
    requested: map<Dimension, real>, applied: map<Dimension, real>, limited: set<Dimension>,
    labelChanged: bool, labelSuppressed: bool)

  datatype Failure = DecayAsStimulus | OutOfOrder

  datatype Outcome = Done(transition: Transition) | Raised(failure: Failure)

  /** The kept entries of one dimension stand for its whole history, which is within the budget. */
  ghost predicate Tracked(s: Settings, all: seq<Entry>, recent: seq<Entry>, now: Time) {
    Ordered(all) && NoLaterThan(all, now) && IsRecent(all, recent, now) && WithinBudget(all, s.maxMinute)
  }

  /** The change a request makes to `d`, given all changes made to it so far. */
  ghost function Made(s: Settings, all: seq<Entry>, current: real, requested: real, at: Time): real {
    Change(s.maxEvent, s.maxMinute - Spent(all, at), current, requested)
  }

  function Recorded(all: seq<Entry>, delta: real, at: Time): seq<Entry> {
    if delta == 0.0 then all else all + [Entry(at, delta)]
  }

  lemma TrackedLater(s: Settings, all: seq<Entry>, recent: seq<Entry>, now: Time, later: Time)
    requires Tracked(s, all, recent, now) && now <= later
    ensures Tracked(s, all, recent, later)
  {
  }

  lemma TrackedDrop(s: Settings, all: seq<Entry>, recent: seq<Entry>, at: Time)
    requires Tracked(s, all, recent, at) && recent != [] && recent[0].at <= at - MINUTE
    ensures Tracked(s, all, recent[1..], at)
  {
    var dropped := |all| - |recent|;
    assert all[..dropped + 1] == all[..dropped] + [recent[0]];
  }

  lemma TrackedAppend(s: Settings, all: seq<Entry>, recent: seq<Entry>, delta: real, at: Time)
    requires Tracked(s, all, recent, at) && Spent(all, at) + Abs(delta) <= s.maxMinute
    ensures Tracked(s, all + [Entry(at, delta)], recent + [Entry(at, delta)], at)
  {
    BudgetAfter(all, Entry(at, delta), s.maxMinute);
    var more, kept := all + [Entry(at, delta)], recent + [Entry(at, delta)];
    assert more[..|more| - |kept|] == all[..|all| - |recent|];
  }

  lemma TrackedSpent(s: Settings, all: seq<Entry>, recent: seq<Entry>, at: Time)
    requires Tracked(s, all, recent, at) && (recent == [] || recent[0].at > at - MINUTE)
    ensures Size(recent) == Spent(all, at) <= s.maxMinute
  {
    RecentIsSpent(all, recent, at);
    assert Spent(all, at) <= s.maxMinute;
  }

  lemma MadeIsPermitted(
    s: Settings, all: seq<Entry>, recent: seq<Entry>, current: real, requested: real, at: Time)
    requires s.Usable() && 0.0 <= current <= 1.0 && Tracked(s, all, recent, at)
    ensures var made, remaining := Made(s, all, current, requested, at), s.maxMinute - Spent(all, at);
            && Permitted(s.maxEvent, remaining, current, made)
            && (Abs(made - requested) > EPSILON <==>
                  Abs(Limited(s.maxEvent, remaining, requested) - requested) > EPSILON || Abs(made - requested) > EPSILON)
  {
    assert Spent(all, at) <= s.maxMinute;
    ChangeIsNearest(s.maxEvent, s.maxMinute - Spent(all, at), current, requested);
  }

  // ----- The changes of one transition -----

  /** Each change in `made` is the one its request leads to. */
  ghost predicate AllMade(
    s: Settings, past: map<Dimension, seq<Entry>>, values: map<Dimension, real>, requested: map<Dimension, real>,
    at: Time, made: map<Dimension, real>)
  {
    forall d :: d in made ==>
      d in past && d in values && d in requested && made[d] == Made(s, past[d], values[d], requested[d], at)
  }

  /** `now` is `past` with the changes in `made` recorded. */
  ghost predicate AllRecorded(
    past: map<Dimension, seq<Entry>>, now: map<Dimension, seq<Entry>>, at: Time, made: map<Dimension, real>)
  {
    now.Keys == past.Keys && forall d :: d in past ==> now[d] == if d in made then Recorded(past[d], made[d], at) else past[d]
  }

  ghost predicate AllLimited(requested: map<Dimension, real>, made: map<Dimension, real>, limited: set<Dimension>) {
    forall d :: d in limited <==> d in made && d in requested && Abs(made[d] - requested[d]) > EPSILON
  }

  /** The size of the largest change in `made`, or zero when there is none. */
  ghost predicate IsLargest(made: map<Dimension, real>, largest: real) {
    && (forall d :: d in made ==> Abs(made[d]) <= largest)
    && (if made == map[] then largest == 0.0 else exists d :: d in made && Abs(made[d]) == largest)
  }

  /** The intensity is the largest change as a share of the event limit. */
  ghost predicate HasIntensity(made: map<Dimension, real>, maxEvent: real, intensity: real)
    requires maxEvent > 0.0
  {
    exists largest :: IsLargest(made, largest) && largest <= maxEvent && intensity == largest / maxEvent
  }

  /** The label after a transition: the one the values call for, unless the change is held back. */
  ghost predicate LabelFollows(
    s: Settings, was: EmotionState, now: EmotionState, focusUntil: Option<Time>, lastExplosion: Option<Time>, t: Transition)
    requires InRange(now.values)
  {
    var candidate := MapLabel(now.values, focusUntil, now.lastUpdated);
    var may := MayChange(s, was.dominant, was.labelSince, lastExplosion, candidate, now.lastUpdated);
    && t.labelChanged == (candidate != was.dominant && may)
    && t.labelSuppressed == (candidate != was.dominant && !may)
    && now.dominant == (if t.labelChanged then candidate else was.dominant)
    && now.labelSince == (if t.labelChanged then now.lastUpdated else was.labelSince)
  }

  function Moved(values: map<Dimension, real>, made: map<Dimension, real>): map<Dimension, real>
    requires made.Keys <= values.Keys
  {
    map d | d in values :: if d in made then values[d] + made[d] else values[d]
  }

  /** All that an engine remembers of the past: its state, every change and every label change. */
  datatype Memory = Memory(
    state: EmotionState, applied: map<Dimension, seq<Entry>>, changes: seq<LabelChange>, lastExplosion: Option<Time>)

  /** One event at `at`: every requested change is made within the limits and recorded, nothing else changes,
      and label and intensity follow. */
  ghost predicate Follows(
    s: Settings, was: Memory, now: Memory, focusUntil: Option<Time>, requested: map<Dimension, real>, at: Time,
    t: Transition)
  {
    && s.Usable() && InRange(was.state.values) && InRange(now.state.values)
    && now.state.lastUpdated == at && t.requested == requested && t.applied.Keys == requested.Keys
    && t.applied.Keys <= was.state.values.Keys
    && AllMade(s, was.applied, was.state.values, requested, at, t.applied)
    && now.state.values == Moved(was.state.values, t.applied)
    && AllRecorded(was.applied, now.applied, at, t.applied)
    && AllLimited(requested, t.applied, t.limited)
    && HasIntensity(t.applied, s.maxEvent, now.state.intensity)
    && LabelFollows(s, was.state, now.state, focusUntil, was.lastExplosion, t)
    && now.changes == was.changes + if t.labelChanged then [LabelChange(at, now.state.dominant)] else []
  }

  /** The values are the initial ones plus all recorded changes: the record is complete. */
  ghost predicate Accounts(
    start: map<Dimension, real>, applied: map<Dimension, seq<Entry>>, values: map<Dimension, real>)
  {
    forall d: Dimension :: d in start && d in applied && d in values && values[d] == start[d] + Net(applied[d])
  }

  lemma AccountsAfter(
    start: map<Dimension, real>, past: map<Dimension, seq<Entry>>, values: map<Dimension, real>,
    now: map<Dimension, seq<Entry>>, at: Time, made: map<Dimension, real>)
    requires Accounts(start, past, values) && AllRecorded(past, now, at, made) && made.Keys <= values.Keys
    ensures Accounts(start, now, Moved(values, made))
  {
    forall d: Dimension
      ensures d in start && d in now && d in values && Moved(values, made)[d] == start[d] + Net(now[d])
    {
      if d in made {
        NetAppend(past[d], Entry(at, made[d]));
      }
    }
  }

  ghost predicate InRange(values: map<Dimension, real>) {
    forall d: Dimension :: d in values && 0.0 <= values[d] <= 1.0
  }

  lemma LargestStep(made: map<Dimension, real>, largest: real, d: Dimension, actual: real)
    requires IsLargest(made, largest) && d !in made
    ensures IsLargest(made[d := actual], Max(largest, Abs(actual)))
  {
    var more := made[d := actual];
    if made != map[] {
      var e :| e in made && Abs(made[e]) == largest;
      assert e in more && more[e] == made[e];
    }
    assert d in more && Abs(more[d]) == Abs(actual);
  }

  lemma MadeStep(
    s: Settings, past: map<Dimension, seq<Entry>>, values: map<Dimension, real>, requested: map<Dimension, real>,
    at: Time, made: map<Dimension, real>, d: Dimension)
    requires AllMade(s, past, values, requested, at, made) && d in past && d in values && d in requested
    ensures AllMade(s, past, values, requested, at, made[d := Made(s, past[d], values[d], requested[d], at)])
  {
  }

  lemma RecordedStep(
    past: map<Dimension, seq<Entry>>, now: map<Dimension, seq<Entry>>, at: Time, made: map<Dimension, real>,
    d: Dimension, actual: real)
    requires AllRecorded(past, now, at, made) && d in past && d !in made
    ensures AllRecorded(past, now[d := Recorded(now[d], actual, at)], at, made[d := actual])
  {
  }

  lemma MovedStep(values: map<Dimension, real>, made: map<Dimension, real>, d: Dimension, actual: real)
    requires made.Keys <= values.Keys && d in values && d !in made
    ensures Moved(values, made[d := actual]) == Moved(values, made)[d := values[d] + actual]
  {
  }

  /** The changes made so far, and what they amount to. */
  ghost predicate Shifted(
    s: Settings, past: map<Dimension, seq<Entry>>, start: map<Dimension, real>, requested: map<Dimension, real>,
    at: Time, now: map<Dimension, seq<Entry>>, values: map<Dimension, real>, made: map<Dimension, real>,
    limited: set<Dimension>, largest: real)
  {
    && made.Keys <= start.Keys && values == Moved(start, made) && InRange(values)
    && AllMade(s, past, start, requested, at, made) && AllRecorded(past, now, at, made)
    && AllLimited(requested, made, limited) && IsLargest(made, largest) && largest <= s.maxEvent
  }

  lemma ShiftedStep(
    s: Settings, past: map<Dimension, seq<Entry>>, start: map<Dimension, real>, requested: map<Dimension, real>,
    at: Time, now: map<Dimension, seq<Entry>>, values: map<Dimension, real>, made: map<Dimension, real>,
    limited: set<Dimension>, largest: real, d: Dimension, actual: real, wasLimited: bool)
    requires Shifted(s, past, start, requested, at, now, values, made, limited, largest)
    requires d !in made && d in past && d in start && d in requested
    requires actual == Made(s, past[d], start[d], requested[d], at) && d in now && now[d] == past[d]
    requires 0.0 <= start[d] + actual <= 1.0 && Abs(actual) <= s.maxEvent
    requires wasLimited == (Abs(actual - requested[d]) > EPSILON)
    ensures Shifted(s, past, start, requested, at, now[d := Recorded(now[d], actual, at)],
                    values[d := start[d] + actual], made[d := actual],
                    if wasLimited then limited + {d} else limited, Max(largest, Abs(actual)))
  {
    hide Made, Recorded, Moved, AllMade, AllRecorded, IsLargest;
    LargestStep(made, largest, d, actual);
    RecordedStep(past, now, at, made, d, actual);
    MadeStep(s, past, start, requested, at, made, d);
    MovedStep(start, made, d, actual);
  }

  lemma ShiftedMeans(
    s: Settings, past: map<Dimension, seq<Entry>>, start: map<Dimension, real>, requested: map<Dimension, real>,
    at: Time, now: map<Dimension, seq<Entry>>, values: map<Dimension, real>, made: map<Dimension, real>,
    limited: set<Dimension>, largest: real)
    requires Shifted(s, past, start, requested, at, now, values, made, limited, largest)
    ensures made.Keys <= start.Keys && values == Moved(start, made) && InRange(values)
    ensures AllMade(s, past, start, requested, at, made) && AllRecorded(past, now, at, made)
    ensures AllLimited(requested, made, limited) && IsLargest(made, largest) && largest <= s.maxEvent
  {
  }

  function Requested(kind: Kind, intensity: real): map<Dimension, real> {
    map d | d in Rules(kind) :: Rules(kind)[d] * intensity
  }

  /** A value that is to move by `step`, with `past` the changes made to it before: it moves in that direction
      or stays, never further, and all the way when event limit, minute budget and range have room for it. */
  ghost predicate MovesBy(s: Settings, past: seq<Entry>, before: real, now: real, step: real, at: Time) {
    && (0.0 <= now - before <= step || step <= now - before <= 0.0)
    && (Abs(step) <= s.maxEvent && Spent(past, at) + Abs(step) <= s.maxMinute && 0.0 <= before + step <= 1.0 ==>
          now == before + step)
  }

  /** A stimulus moves each dimension of its rule by the rule's change times `strength`, and no other. */
  ghost predicate ActsOn(s: Settings, kind: Kind, strength: real, was: Memory, now: map<Dimension, real>, at: Time) {
    forall d: Dimension :: d in was.state.values && d in was.applied && d in now &&
      if d in Rules(kind) then MovesBy(s, was.applied[d], was.state.values[d], now[d], Rules(kind)[d] * strength, at)
      else now[d] == was.state.values[d]
  }

  lemma ChangeMovesBy(s: Settings, past: seq<Entry>, current: real, step: real, at: Time)
    requires s.Usable() && 0.0 <= current <= 1.0 && Spent(past, at) <= s.maxMinute
    ensures MovesBy(s, past, current, current + Made(s, past, current, step, at), step, at)
  {
    hide Spent;
    ChangeIsNearest(s.maxEvent, s.maxMinute - Spent(past, at), current, step);
  }

  /** What follows a request by the rule of `kind`. */
  lemma FollowsActs(
    s: Settings, was: Memory, now: Memory, focusUntil: Option<Time>, kind: Kind, strength: real, at: Time, t: Transition)
    requires Follows(s, was, now, focusUntil, Requested(kind, strength), at, t)
    requires forall d: Dimension :: d in was.applied && Spent(was.applied[d], at) <= s.maxMinute
    ensures ActsOn(s, kind, strength, was, now.state.values, at)
  {
    hide MovesBy, Made, Spent, Rules, HasIntensity, LabelFollows, AllRecorded, AllLimited;
    forall d: Dimension
      ensures d in was.state.values && d in was.applied && d in now.state.values &&
              if d in Rules(kind) then
                MovesBy(s, was.applied[d], was.state.values[d], now.state.values[d], Rules(kind)[d] * strength, at)
              else now.state.values[d] == was.state.values[d]
    {
      if d in Rules(kind) {
        ChangeMovesBy(s, was.applied[d], was.state.values[d], Rules(kind)[d] * strength, at);
      }
    }
  }

  function DecayRequests(s: Settings, values: map<Dimension, real>, elapsed: nat): map<Dimension, real>
    requires InRange(values)
  {
    if elapsed == 0 then map[] else map d | d in ALL :: s.DecayRequest(d, values[d], elapsed)
  }

  class EmotionEngine {
    const settings: Settings
    var state: EmotionState
    var lastExplosionAt: Option<Time>
    var focusUntil: Option<Time>
    var rolling: map<Dimension, seq<Entry>>
    ghost const first: LabelChange
    ghost const start: map<Dimension, real>
    ghost var applied: map<Dimension, seq<Entry>>  // every change ever made
    ghost var changes: seq<LabelChange>            // every label change

    ghost predicate TracksAt(now: Time)
      reads `rolling, `applied
    {
      forall d: Dimension :: d in rolling && d in applied && Tracked(settings, applied[d], rolling[d], now)
    }

    ghost predicate LabelsAt(now: Time)
      reads `changes, `lastExplosionAt
    {
      && LongEnough(settings, first, changes) && ExplosionsApart(settings, changes) && ChangesBy(changes, now)
      && lastExplosionAt == LastExplosion(changes)
    }

    ghost predicate Valid()
      reads this
    {
      && settings.Usable() && state.Valid()
      && TracksAt(state.lastUpdated) && LabelsAt(state.lastUpdated) && Accounts(start, applied, state.values)
      && Held(first, changes) == LabelChange(state.labelSince, state.dominant)
    }

    ghost function Past(): Memory
      reads `state, `applied, `changes, `lastExplosionAt
    {
      Memory(state, applied, changes, lastExplosionAt)
    }

    constructor Init(settings: Settings, initial: EmotionState)
      requires settings.Usable() && initial.Valid()
      ensures Valid() && this.settings == settings && state == initial && changes == []
      ensures first == LabelChange(initial.labelSince, initial.dominant) && start == initial.values
      ensures forall d: Dimension :: d in applied && applied[d] == []
    {
      this.settings, state := settings, initial;
      lastExplosionAt, focusUntil := None, None;
      rolling := map d | d in ALL :: [];
      applied := map d | d in ALL :: [];
      first, start, changes := LabelChange(initial.labelSince, initial.dominant), initial.values, [];
      new;
      forall d: Dimension ensures d in ALL {
        AllDimensions(d);
      }
    }

    /** The source's constructor raises on limits out of range: null stands for that. */
    static method Create(settings: Settings, initial: EmotionState) returns (engine: EmotionEngine?)
      requires initial.Valid()
      ensures engine == null <==> !settings.Usable()
      ensures engine != null ==> fresh(engine) && engine.Valid() && engine.settings == settings && engine.state == initial
    {
      if !settings.Usable() {
        return null;
      }
      engine := new EmotionEngine.Init(settings, initial);
    }

    /** Drops the entries of `d` that have left the window of a minute before `at`. */
    method Prune(d: Dimension, at: Time) returns (entries: seq<Entry>)
      requires d in rolling && d in applied && Tracked(settings, applied[d], rolling[d], at)
      modifies `rolling
      ensures rolling == old(rolling)[d := entries]
      ensures Tracked(settings, applied[d], entries, at) && (entries == [] || entries[0].at > at - MINUTE)
    {
      hide Tracked;
      entries := rolling[d];
      var cutoff := at - MINUTE;
      while entries != [] && entries[0].at <= cutoff
        invariant rolling == old(rolling) && Tracked(settings, applied[d], entries, at)
        decreases |entries|
      {
        TrackedDrop(settings, applied[d], entries, at);
        entries := entries[1..];
      }
      rolling := rolling[d := entries];
    }

    static method Used(entries: seq<Entry>) returns (used: real)
      ensures used == Size(entries)
    {
      used := 0.0;
      for i := 0 to |entries|
        invariant used == Size(entries[..i])
      {
        assert entries[..i + 1][..i] == entries[..i];
        used := used + Abs(entries[i].delta);
      }
      assert entries[..|entries|] == entries;
    }

    /** Limits a request by event and by what the last minute has left. */
    method LimitDelta(d: Dimension, requested: real, at: Time) returns (delta: real, limited: bool)
      requires settings.Usable() && d in rolling && d in applied && Tracked(settings, applied[d], rolling[d], at)
      modifies `rolling
      ensures d in rolling && rolling == old(rolling)[d := rolling[d]] && Tracked(settings, applied[d], rolling[d], at)
      ensures delta == Limited(settings.maxEvent, settings.maxMinute - Spent(applied[d], at), requested)
      ensures limited == (Abs(delta - requested) > EPSILON)
    {
      hide Tracked;
      var eventLimited := Min(settings.maxEvent, Max(-settings.maxEvent, requested));
      var entries := Prune(d, at);
      var used := Used(entries);
      TrackedSpent(settings, applied[d], entries, at);
      var remaining := Max(0.0, settings.maxMinute - used);
      delta := if eventLimited >= 0.0 then Min(eventLimited, remaining) else Max(eventLimited, -remaining);
      limited := Abs(delta - requested) > EPSILON;
    }

    /** The change of one dimension: what the limits permit nearest to the request, recorded unless zero. */
    method Shift(d: Dimension, requested: real, at: Time) returns (actual: real, limited: bool)
      requires settings.Usable() && TracksAt(at) && d in state.values && 0.0 <= state.values[d] <= 1.0
      modifies `rolling, `applied
      ensures TracksAt(at) && d in old(applied)
      ensures actual == Made(settings, old(applied)[d], state.values[d], requested, at)
      ensures 0.0 <= state.values[d] + actual <= 1.0 && Abs(actual) <= settings.maxEvent
      ensures applied == old(applied)[d := Recorded(old(applied)[d], actual, at)]
      ensures limited == (Abs(actual - requested) > EPSILON)
    {
      hide Tracked, Limited;
      TrackOf(d, at);
      var delta, wasLimited := LimitDelta(d, requested, at);
      var current := state.values[d];
      MadeIsPermitted(settings, applied[d], rolling[d], current, requested, at);
      var updated := Min(1.0, Max(0.0, current + delta));
      actual := updated - current;
      limited := wasLimited || Abs(actual - requested) > EPSILON;
      if actual != 0.0 {
        TrackedAppend(settings, applied[d], rolling[d], actual, at);
        rolling := rolling[d := rolling[d] + [Entry(at, actual)]];
        applied := applied[d := applied[d] + [Entry(at, actual)]];
      } else {
        assert applied == applied[d := applied[d]];
      }
    }

    lemma TrackOf(d: Dimension, at: Time)
      requires TracksAt(at)
      ensures d in rolling && d in applied && Tracked(settings, applied[d], rolling[d], at)
    {
    }

    /** Makes all requested changes, in any order. */
    method Shifts(requested: map<Dimension, real>, at: Time)
      returns (values: map<Dimension, real>, made: map<Dimension, real>, limited: set<Dimension>, largest: real)
      requires settings.Usable() && TracksAt(at) && state.Valid()
      modifies `rolling, `applied
      ensures TracksAt(at) && made.Keys == requested.Keys && made.Keys <= state.values.Keys
      ensures values == Moved(state.values, made) && InRange(values)
      ensures AllMade(settings, old(applied), state.values, requested, at, made)
      ensures AllRecorded(old(applied), applied, at, made)
      ensures AllLimited(requested, made, limited) && IsLargest(made, largest) && largest <= settings.maxEvent
    {
      hide TracksAt, Made, Recorded, Shifted, AllMade, AllRecorded, AllLimited, IsLargest, Moved, InRange;
      values, made, limited, largest := state.values, map[], {}, 0.0;
      Nothing(at, requested);
      var todo := requested.Keys;
      while todo != {}
        invariant todo <= requested.Keys && made.Keys == requested.Keys - todo && TracksAt(at)
        invariant Shifted(settings, old(applied), state.values, requested, at, applied, values, made, limited, largest)
        decreases |todo|
      {
        var d :| d in todo;
        Untouched(old(applied), at, requested, values, made, limited, largest, d);
        ghost var now := applied;
        var actual, wasLimited := Shift(d, requested[d], at);
        ShiftedStep(settings, old(applied), state.values, requested, at, now, values, made, limited, largest,
                    d, actual, wasLimited);
        values, made := values[d := state.values[d] + actual], made[d := actual];
        limited := if wasLimited then limited + {d} else limited;
        largest := Max(largest, Abs(actual));
        todo := todo - {d};
      }
      ShiftedMeans(settings, old(applied), state.values, requested, at, applied, values, made, limited, largest);
    }

    lemma Nothing(at: Time, requested: map<Dimension, real>)
      requires settings.Usable() && state.Valid()
      ensures Shifted(settings, applied, state.values, requested, at, applied, state.values, map[], {}, 0.0)
    {
    }

    lemma Untouched(
      past: map<Dimension, seq<Entry>>, at: Time, requested: map<Dimension, real>, values: map<Dimension, real>,
      made: map<Dimension, real>, limited: set<Dimension>, largest: real, d: Dimension)
      requires TracksAt(at) && state.Valid() && d !in made
      requires Shifted(settings, past, state.values, requested, at, applied, values, made, limited, largest)
      ensures d in applied && d in past && applied[d] == past[d] && d in state.values && 0.0 <= state.values[d] <= 1.0
    {
    }

    // ----- Labels -----

    /** The label as chosen and possibly held back: a change is made only when `MayChange` allows it. */
    method UpdateLabel(before: EmotionState, candidate: Label, at: Time) returns (next: LabelChange, changed: bool)
      requires LabelsAt(at) && Held(first, changes) == LabelChange(before.labelSince, before.dominant)
      modifies `lastExplosionAt, `changes
      ensures LabelsAt(at) && Held(first, changes) == next
      ensures changed == (candidate != before.dominant
                          && MayChange(settings, before.dominant, before.labelSince, old(lastExplosionAt), candidate, at))
      ensures next == if changed then LabelChange(at, candidate) else LabelChange(before.labelSince, before.dominant)
      ensures changes == if changed then old(changes) + [next] else old(changes)
    {
      next, changed := LabelChange(before.labelSince, before.dominant), false;
      if candidate != before.dominant {
        var canChange := before.dominant == Neutral || at - before.labelSince >= settings.labelMinDuration;
        if candidate == ExplosionMode && lastExplosionAt.Some? {
          canChange := canChange && at - lastExplosionAt.value >= settings.explosionCooldown;
        }
        if canChange {
          LabelsAfter(settings, first, changes, LabelChange(at, candidate));
          next, changed := LabelChange(at, candidate), true;
          changes := changes + [next];
          if candidate == ExplosionMode {
            lastExplosionAt := Some(at);
          }
        }
      }
    }

    /** All changes, the label and the intensity of one event. */
    method Transit(requested: map<Dimension, real>, at: Time) returns (t: Transition)
      requires Valid() && at >= state.lastUpdated
      modifies `state, `lastExplosionAt, `rolling, `applied, `changes
      ensures Valid() && Follows(settings, old(Past()), Past(), focusUntil, requested, at, t)
    {
      hide Tracked, AllMade, AllRecorded, AllLimited, IsLargest, HasIntensity, Moved, LongEnough, ExplosionsApart;
      hide MapLabel, Accounts;
      var before := state;
      TracksLater(at);
      var values, made, limited, largest := Shifts(requested, at);
      var candidate := MapLabel(values, focusUntil, at);
      var next, changed := UpdateLabel(before, candidate, at);
      AccountsAfter(start, old(applied), before.values, applied, at, made);
      ValuesInRange(before);
      IntensityOf(made, largest, settings.maxEvent);
      state := EmotionState(values, next.dominant, Min(1.0, largest / settings.maxEvent), at, next.at);
      t := Transition(requested, made, limited, changed, candidate != before.dominant && !changed);
    }

    lemma ValuesInRange(state: EmotionState)
      requires state.Valid()
      ensures InRange(state.values)
    {
    }

    lemma TracksLater(at: Time)
      requires TracksAt(state.lastUpdated) && state.lastUpdated <= at
      ensures TracksAt(at)
    {
      forall d: Dimension ensures d in rolling && d in applied && Tracked(settings, applied[d], rolling[d], at) {
        TrackOf(d, state.lastUpdated);
        TrackedLater(settings, applied[d], rolling[d], state.lastUpdated, at);
      }
    }

    // ----- Events -----

    /** Applies a stimulus; a refused one leaves the engine as it was. */
    method Apply(kind: Kind, intensity: real, at: Time) returns (outcome: Outcome)
      requires Valid() && 0.0 <= intensity <= 1.0
      modifies this
      ensures Valid()
      ensures outcome.Raised? <==> kind == TimeDecay || at < old(state).lastUpdated
      ensures outcome.Raised? ==>
                && outcome.failure == (if kind == TimeDecay then DecayAsStimulus else OutOfOrder)
                && unchanged(this)
      ensures outcome.Done? ==>
                && focusUntil == (if kind == FocusedActivity then Some(at + FOCUS) else old(focusUntil))
                && Follows(settings, old(Past()), Past(), focusUntil, Requested(kind, intensity), at, outcome.transition)
      ensures outcome.Done? ==> ActsOn(settings, kind, intensity, old(Past()), state.values, at)
    {
      if kind == TimeDecay {
        return Raised(DecayAsStimulus);
      }
      if at < state.lastUpdated {
        return Raised(OutOfOrder);
      }
      hide Follows, Requested, Tracked, LongEnough, ExplosionsApart, Accounts, ActsOn;
      WithinAt(at);
      var requested := Requested(kind, intensity);
      if kind == FocusedActivity {
        focusUntil := Some(at + FOCUS);
      }
      var t := Transit(requested, at);
      FollowsActs(settings, old(Past()), Past(), focusUntil, kind, intensity, at, t);
      return Done(t);
    }

    /** A model's suggestion counts at most half as much as a stimulus. */
    method ApplySuggestion(kind: Kind, intensity: real, confidence: real, at: Time) returns (outcome: Outcome)
      requires Valid() && 0.0 <= intensity <= 1.0 && 0.0 <= confidence <= 1.0
      modifies this
      ensures Valid()
      ensures outcome.Raised? <==> kind == TimeDecay || at < old(state).lastUpdated
      ensures outcome.Raised? ==> unchanged(this)
      ensures outcome.Done? ==>
                && focusUntil == (if kind == FocusedActivity then Some(at + FOCUS) else old(focusUntil))
                && Follows(settings, old(Past()), Past(), focusUntil,
                           Requested(kind, Min(0.5, intensity * confidence)), at, outcome.transition)
      ensures outcome.Done? ==>
                ActsOn(settings, kind, Min(0.5, intensity * confidence), old(Past()), state.values, at)
    {
      if kind == TimeDecay {
        return Raised(DecayAsStimulus);
      }
      hide Follows, Requested, Valid, ActsOn;
      ShareOf(intensity, confidence);
      outcome := Apply(kind, Min(0.5, intensity * confidence), at);
    }

    /** Lets time pass: every value moves towards neutral and never beyond it. */
    method Decay(at: Time) returns (outcome: Outcome)
      requires Valid() && settings.Powers()
      modifies this
      ensures Valid() && focusUntil == old(focusUntil)
      ensures outcome.Raised? <==> at < old(state).lastUpdated
      ensures outcome.Raised? ==> outcome.failure == OutOfOrder && unchanged(this)
      ensures outcome.Done? ==>
                InRange(old(state).values)
                && Follows(settings, old(Past()), Past(), focusUntil,
                           DecayRequests(settings, old(state).values, at - old(state).lastUpdated), at, outcome.transition)
      ensures outcome.Done? && at == old(state).lastUpdated ==> state.values == old(state).values && applied == old(applied)
      ensures outcome.Done? ==> forall d: Dimension :: Between(old(state).values[d], state.values[d], NeutralValue(d))
    {
      hide AllMade, AllRecorded, AllLimited, HasIntensity, LabelFollows, Moved, Tracked, LongEnough, ExplosionsApart;
      hide Accounts, Settings.Powers, DecayRequests, Between;
      if at < state.lastUpdated {
        return Raised(OutOfOrder);
      }
      var elapsed := at - state.lastUpdated;
      var requested := DecayRequests(settings, state.values, elapsed);
      WithinAt(at);
      var t := Transit(requested, at);
      DecayedBetween(settings, old(applied), old(state).values, at, t.applied, elapsed);
      if elapsed == 0 {
        NothingRequested(settings, old(state).values);
        NothingMoved(old(applied), applied, old(state).values, at, t.applied);
      }
      return Done(t);
    }

    lemma WithinAt(at: Time)
      requires Valid()
      ensures InRange(state.values) && forall d: Dimension :: d in applied && Spent(applied[d], at) <= settings.maxMinute
    {
    }
  }

  lemma IntensityOf(made: map<Dimension, real>, largest: real, maxEvent: real)
    requires IsLargest(made, largest) && largest <= maxEvent && maxEvent > 0.0
    ensures 0.0 <= Min(1.0, largest / maxEvent) <= 1.0 && HasIntensity(made, maxEvent, Min(1.0, largest / maxEvent))
  {
    LargestIsSize(made, largest);
    Quotient(largest, maxEvent);
    hide IsLargest;
  }

  lemma LargestIsSize(made: map<Dimension, real>, largest: real)
    requires IsLargest(made, largest)
    ensures largest >= 0.0
  {
  }

  lemma Quotient(part: real, whole: real)
    requires 0.0 <= part <= whole && whole > 0.0
    ensures 0.0 <= part / whole <= 1.0 && part / whole * whole == part
  {
  }

  lemma ShareAtMost(x: real, strength: real)
    requires 0.0 <= strength <= 0.5
    ensures Abs(x * strength) <= 0.5 * Abs(x)
  {
    if x >= 0.0 {
      assert 0.0 <= x * strength <= x * 0.5;
    } else {
      assert x * strength == -((-x) * strength);
      assert 0.0 <= (-x) * strength <= (-x) * 0.5;
    }
  }

  /** A suggestion never asks for more than half of what the stimulus at full strength does. */
  lemma SuggestionsAreWeak(kind: Kind, intensity: real, confidence: real, d: Dimension)
    requires 0.0 <= intensity <= 1.0 && 0.0 <= confidence <= 1.0 && d in Rules(kind)
    ensures d in Requested(kind, Min(0.5, intensity * confidence))
    ensures Abs(Requested(kind, Min(0.5, intensity * confidence))[d]) <= 0.5 * Abs(Rules(kind)[d])
  {
    ShareOf(intensity, confidence);
    ShareAtMost(Rules(kind)[d], Min(0.5, intensity * confidence));
  }

  /** `now` lies between `before` and `goal`. */
  predicate Between(before: real, now: real, goal: real) {
    before <= now <= goal || goal <= now <= before
  }

  lemma DecayedBetween(
    s: Settings, past: map<Dimension, seq<Entry>>, values: map<Dimension, real>, at: Time, made: map<Dimension, real>,
    elapsed: nat)
    requires s.Powers() && s.Usable() && InRange(values)
    requires AllMade(s, past, values, DecayRequests(s, values, elapsed), at, made)
    requires forall d: Dimension :: d in past && Spent(past[d], at) <= s.maxMinute
    requires made.Keys == DecayRequests(s, values, elapsed).Keys <= values.Keys
    ensures forall d: Dimension :: Between(values[d], Moved(values, made)[d], NeutralValue(d))
  {
    forall d: Dimension ensures Between(values[d], Moved(values, made)[d], NeutralValue(d)) {
      s.DecayTowardNeutral(d, values[d], elapsed);
      if d in made {
        var asked := DecayRequests(s, values, elapsed)[d];
        ChangeIsNearest(s.maxEvent, s.maxMinute - Spent(past[d], at), values[d], asked);
      }
    }
  }

  lemma NothingRequested(s: Settings, values: map<Dimension, real>)
    requires InRange(values)
    ensures DecayRequests(s, values, 0) == map[]
  {
  }

  lemma NothingMoved(
    past: map<Dimension, seq<Entry>>, now: map<Dimension, seq<Entry>>, values: map<Dimension, real>, at: Time,
    made: map<Dimension, real>)
    requires AllRecorded(past, now, at, made) && made == map[]
    ensures now == past && Moved(values, made) == values
  {
  }

  const ALL: set<Dimension> := {Affection, Energy, Curiosity, Concern, Embarrassment, Pride, ExplosionUrge, Boredom}

  lemma AllDimensions(d: Dimension)
    ensures d in ALL
  {
  }
}
