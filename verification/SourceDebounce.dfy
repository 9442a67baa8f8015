/** The source debounce: a local change counts only after it has stood still for long enough
    (packages/cli/src/demoSourceBaseline.ts:107-150). */
module SourceDebounce {
  import opened Outcomes

  datatype State = Seeded | Unchanged | Debouncing | Stable | RemoteChanged | RemoteReconciled

  datatype Pending = Pending(fingerprint: string, firstObservedAt: int)

  datatype Baseline = Baseline(local: string, published: Option<string>, pending: Option<Pending>)

  datatype Observation = Observation(local: string, published: string, now: int)

  function Observe(baseline: Option<Baseline>, o: Observation, debounceMs: nat): (State, Baseline) {
    match baseline
    case None => (Seeded, Baseline(o.local, Some(o.published), None))
    case Some(b) =>
      if b.published.None? && b.local == o.published then Compare(b.(published := Some(o.published)), o, debounceMs)
      else Compare(b, o, debounceMs)
  }

  function Compare(b: Baseline, o: Observation, debounceMs: nat): (State, Baseline) {
    if b.published != Some(o.published) then
      if o.local == o.published then (RemoteReconciled, Baseline(o.local, Some(o.published), None))
      else (RemoteChanged, b)
    else if o.local == b.local then (Unchanged, b.(pending := None))
    else if b.pending.None? || b.pending.value.fingerprint != o.local || o.now < b.pending.value.firstObservedAt then
      (Debouncing, b.(pending := Some(Pending(o.local, o.now))))
    else (if o.now - b.pending.value.firstObservedAt >= debounceMs then Stable else Debouncing, b)
  }

  /** The published source that a baseline answers for: a baseline from before these were kept takes the first one that
      equals its local source. */
  ghost predicate AnswersFor(b: Baseline, published: string) {
    b.published == Some(published) || (b.published.None? && b.local == published)
  }

  /** What one observation says. With no baseline it becomes one. Under another published source it is a remote change,
      reconciled when the local source is that one. Under the same it is unchanged, or a local change: seen first here,
      or last seen otherwise, or with the clock gone back, it starts the wait; else it has stood still so far. */
  lemma ObserveMeans(b: Baseline, o: Observation, debounceMs: nat)
    ensures Observe(None, o, debounceMs) == (Seeded, Baseline(o.local, Some(o.published), None))
    ensures
      var (state, next) := Observe(Some(b), o, debounceMs);
      if !AnswersFor(b, o.published) then
        if o.local == o.published then state == RemoteReconciled && next == Baseline(o.local, Some(o.published), None)
        else state == RemoteChanged && next == b
      else if o.local == b.local then state == Unchanged && next == Baseline(b.local, Some(o.published), None)
      else
        var since := match b.pending
                     case Some(p) => if p.fingerprint == o.local && p.firstObservedAt <= o.now then p.firstObservedAt
                                     else o.now
                     case None => o.now;
        && next == Baseline(b.local, Some(o.published), Some(Pending(o.local, since)))
        && (state == Stable <==> since + debounceMs <= o.now && b.pending == Some(Pending(o.local, since)))
        && (state == Debouncing <==> state != Stable)
  {
  }

  /** The baseline after a history of observations, each fed the one before. */
  function After(start: Option<Baseline>, history: seq<Observation>, debounceMs: nat): Option<Baseline> {
    if history == [] then start else
      Some(Observe(After(start, history[..|history| - 1], debounceMs), history[|history| - 1], debounceMs).1)
  }

  /** Since i, whoever saw this published source also saw this local one. */
  ghost predicate StoodStill(history: seq<Observation>, i: nat, local: string, published: string) {
    forall j :: i <= j < |history| && history[j].published == published ==> history[j].local == local
  }

  /** A pending entry is the first sight of a local source that has stood still since. */
  ghost predicate Explained(b: Option<Baseline>, history: seq<Observation>) {
    b.Some? && b.value.pending.Some? ==>
      && b.value.published.Some?
      && exists i :: 0 <= i < |history| && FirstSight(b.value, history, i)
  }

  ghost predicate FirstSight(b: Baseline, history: seq<Observation>, i: nat)
    requires i < |history| && b.pending.Some? && b.published.Some?
  {
    && history[i] == Observation(b.pending.value.fingerprint, b.published.value, b.pending.value.firstObservedAt)
    && StoodStill(history, i, b.pending.value.fingerprint, b.published.value)
  }

  lemma SightStays(b: Baseline, history: seq<Observation>, o: Observation, i: nat)
    requires i < |history| && b.pending.Some? && b.published.Some? && FirstSight(b, history, i)
    requires o.published == b.published.value ==> o.local == b.pending.value.fingerprint
    ensures FirstSight(b, history + [o], i)
  {
  }

  lemma StepExplains(b: Option<Baseline>, history: seq<Observation>, o: Observation, debounceMs: nat)
    requires Explained(b, history)
    ensures Explained(Some(Observe(b, o, debounceMs).1), history + [o])
  {
    var next := Observe(b, o, debounceMs).1;
    if next.pending.Some? {
      if b.Some? && b.value.pending == next.pending && b.value.published == next.published {
        var i :| 0 <= i < |history| && FirstSight(b.value, history, i);
        if o.published == next.published.value && o.local != next.pending.value.fingerprint {
          assert false;
        }
        SightStays(next, history, o, i);
      } else {
        assert FirstSight(next, history + [o], |history|);
      }
    }
  }

  lemma {:induction false} RunExplains(start: Option<Baseline>, history: seq<Observation>, debounceMs: nat)
    requires start.None? || start.value.pending.None?
    ensures Explained(After(start, history, debounceMs), history)
  {
    if history != [] {
      var last := |history| - 1;
      RunExplains(start, history[..last], debounceMs);
      StepExplains(After(start, history[..last], debounceMs), history[..last], history[last], debounceMs);
      assert history[..last] + [history[last]] == history;
    }
  }

  /** `Stable` means that at least the debounce time earlier this local source was seen beside this published
      one, and that ever since whoever saw that published source saw this local one. Sightings of another
      published source in between neither count nor restart the wait. */
  lemma StableStoodStill(start: Option<Baseline>, history: seq<Observation>, o: Observation, debounceMs: nat)
    requires start.None? || start.value.pending.None?
    requires Observe(After(start, history, debounceMs), o, debounceMs).0 == Stable
    ensures exists i :: 0 <= i < |history|
                        && history[i].local == o.local && history[i].published == o.published
                        && history[i].now + debounceMs <= o.now
                        && StoodStill(history, i, o.local, o.published)
    ensures After(start, history, debounceMs).value.local != o.local
  {
    RunExplains(start, history, debounceMs);
    var b := After(start, history, debounceMs);
    var i :| 0 <= i < |history| && FirstSight(b.value, history, i);
    assert history[i].local == o.local && StoodStill(history, i, o.local, o.published);
  }

  /** The other way: a new local source that stands still beside the recorded published one is debouncing until
      the time has passed and stable from then on. */
  lemma {:induction false} StandingStillGetsStable(b: Baseline, history: seq<Observation>, o: Observation,
                                                   debounceMs: nat)
    requires history != [] && b.pending.None? && o.local != b.local && b.published == Some(o.published)
    requires forall j :: 0 <= j < |history| ==>
      history[j].local == o.local && history[j].published == o.published && history[0].now <= history[j].now
    requires history[0].now <= o.now
    ensures
      var (state, next) := Observe(After(Some(b), history, debounceMs), o, debounceMs);
      && next == b.(pending := Some(Pending(o.local, history[0].now)))
      && state == if o.now - history[0].now >= debounceMs then Stable else Debouncing
  {
    var last := |history| - 1;
    if last > 0 {
      StandingStillGetsStable(b, history[..last], history[last], debounceMs);
    } else {
      assert history[..0] == [];
    }
  }
}
