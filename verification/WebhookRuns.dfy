/** Duplicates, failures and the order of deliveries: what a run of jobs does and does not depend on. */
module WebhookRuns {
  import opened Wrappers
  import opened Domain
  import opened Repository
  import opened Jobs
  import opened Invariants

  /** The event key a job records if it gets through. */
  function RecordedKey(job: Job): Option<EventKey> {
    match job
    case Note(event, fault) => if fault == RecordFails then None else Some(event.key)
    case Hook(event, _, _) => Some(event.key)
    case _ => None
  }

  /** A duplicate delivery, or one answered with an error. */
  ghost predicate Erasable(s: Store, job: Job) {
    || (RecordedKey(job).Some? && RecordedKey(job).value in s.events)
    || Perform(s, job).reply.Err?
  }

  /** The run without its duplicates and its failures. */
  ghost function Erased(s: Store, jobs: seq<Job>): seq<Job>
    decreases |jobs|
  {
    if jobs == [] then []
    else if Erasable(s, jobs[0]) then Erased(s, jobs[1..])
    else [jobs[0]] + Erased(Perform(s, jobs[0]).store, jobs[1..])
  }

  /** A duplicate or failed delivery leaves both tables as they are. */
  lemma ErasableIsIdle(s: Store, job: Job)
    requires Erasable(s, job)
    ensures Perform(s, job).store == s
  {
  }

  /** A job that is neither has its event, and every event before it, in the table afterwards. */
  lemma EventsOnlyGrow(s: Store, job: Job)
    ensures s.events.Keys <= Perform(s, job).store.events.Keys
    ensures !Erasable(s, job) && RecordedKey(job).Some? ==>
              Perform(s, job).store.events.Keys == s.events.Keys + {RecordedKey(job).value}
  {
  }

  predicate DistinctKeys(jobs: seq<Job>) {
    forall i, j :: 0 <= i < j < |jobs| && RecordedKey(jobs[i]).Some? && RecordedKey(jobs[j]).Some? ==>
                     RecordedKey(jobs[i]) != RecordedKey(jobs[j])
  }

  ghost predicate NoneRecorded(s: Store, jobs: seq<Job>) {
    forall i :: 0 <= i < |jobs| && RecordedKey(jobs[i]).Some? ==> RecordedKey(jobs[i]).value !in s.events
  }

  /** Erasing duplicates and failures from any run changes neither table; what is left has pairwise
      distinct event keys, none recorded before, and every job of it succeeds. */
  lemma {:induction false} Erasure(s: Store, jobs: seq<Job>)
    ensures Run(s, Erased(s, jobs)) == Run(s, jobs)
    ensures DistinctKeys(Erased(s, jobs)) && NoneRecorded(s, Erased(s, jobs))
    ensures forall i :: 0 <= i < |Erased(s, jobs)| ==> Erased(s, jobs)[i] in jobs
    ensures |Replies(s, Erased(s, jobs))| == |Erased(s, jobs)|
    ensures forall r :: r in Replies(s, Erased(s, jobs)) ==> r.Ok?
    decreases |jobs|
  {
    if jobs == [] {
    } else {
      var job, rest := jobs[0], jobs[1..];
      var after := Perform(s, job).store;
      Erasure(after, rest);
      EventsOnlyGrow(s, job);
      if Erasable(s, job) {
        ErasableIsIdle(s, job);
      } else {
        var kept := Erased(after, rest);
        assert Erased(s, jobs) == [job] + kept;
        assert ([job] + kept)[1..] == kept;
        forall i, j | 0 <= i < j < |[job] + kept| && RecordedKey(([job] + kept)[i]).Some?
                      && RecordedKey(([job] + kept)[j]).Some?
          ensures RecordedKey(([job] + kept)[i]) != RecordedKey(([job] + kept)[j])
        {
          assert ([job] + kept)[j] == kept[j - 1];
          if i > 0 {
            assert ([job] + kept)[i] == kept[i - 1];
          } else {
            assert RecordedKey(kept[j - 1]).value !in after.events;
          }
        }
        forall i | 0 <= i < |[job] + kept| && RecordedKey(([job] + kept)[i]).Some?
          ensures RecordedKey(([job] + kept)[i]).value !in s.events
        {
          if i > 0 {
            assert ([job] + kept)[i] == kept[i - 1];
            assert RecordedKey(kept[i - 1]).value !in after.events;
          }
        }
      }
    }
  }

  /** The row an effect leaves under the key it was worked out for. */
  function RowAfter(found: Option<Row>, eff: Effect): Option<Row> {
    match eff
    case Keep => found
    case Insert(row) => Some(row)
    case Overwrite(row) => Some(row)
  }

  predicate IsFor(job: Job, key: SubKey) {
    job.Hook? && job.change.key == key
  }

  /** One delivery, seen by the one row it is about. */
  function RowStep(found: Option<Row>, job: Job): Option<Row>
    requires job.Hook?
  {
    if job.fault == NoFault then RowAfter(found, HookEffect(found, job.change)) else found
  }

  function FoldRow(found: Option<Row>, jobs: seq<Job>): Option<Row>
    requires forall job :: job in jobs ==> job.Hook?
    decreases |jobs|
  {
    if jobs == [] then found else FoldRow(RowStep(found, jobs[0]), jobs[1..])
  }

  /** The deliveries of a run that are about one subscription. */
  function Only(jobs: seq<Job>, key: SubKey): (only: seq<Job>)
    ensures forall job :: job in only ==> IsFor(job, key) && job in jobs
    decreases |jobs|
  {
    if jobs == [] then []
    else if IsFor(jobs[0], key) then [jobs[0]] + Only(jobs[1..], key)
    else Only(jobs[1..], key)
  }

  /** A webhook changes what its own key finds by its effect, and what no other key finds. */
  lemma EffectIsLocal(env: Environment, s: Store, ch: Change, key: SubKey)
    requires Good(env, s.rows) && SoundChange(env, ch) && ProperKey(key)
    requires EffectIn(s, ch).Insert? ==> ch.freshID !in s.rows
    ensures Find(After(s.rows, EffectIn(s, ch)), key)
            == if key == ch.key then RowAfter(Find(s.rows, key), EffectIn(s, ch)) else Find(s.rows, key)
  {
    FindAnswers(s.rows, ch.key);
    HookEffectIsWellFormed(env, Find(s.rows, ch.key), ch);
    HookGetsThrough(env, s.rows, ch);
    var eff := EffectIn(s, ch);
    if !eff.Keep? {
      FindAfterPut(s.rows, eff.row, key);
      WellFormedHasOneKey(env, eff.row, key);
      if eff.Overwrite? {
        WellFormedHasOneKey(env, s.rows[eff.row.id], key);
        WellFormedHasOneKey(env, s.rows[eff.row.id], ch.key);
      }
    }
  }

  /** One webhook job, new to the store and with a fresh row id, seen through one key. */
  lemma JobSeenThroughKey(env: Environment, s: Store, job: Job, key: SubKey)
    requires Good(env, s.rows) && Sound(env, job) && IsWebhook(job) && ProperKey(key)
    requires NewIDs(job) !! s.rows.Keys
    requires RecordedKey(job).Some? ==> RecordedKey(job).value !in s.events
    ensures Find(Perform(s, job).store.rows, key)
            == if IsFor(job, key) then RowStep(Find(s.rows, key), job) else Find(s.rows, key)
  {
    match job {
      case Hook(event, ch, fault) =>
        HookOutcome(env, s, event, ch, fault);
        FindAnswers(s.rows, ch.key);
        HookEffectIsWellFormed(env, Find(s.rows, ch.key), ch);
        EffectIsLocal(env, s, ch, key);
      case _ =>
    }
  }

  /** Independence of subscriptions: after any run of webhooks with distinct, new event keys, the row
      of a subscription is the fold of a one-row step over the deliveries for that subscription alone,
      whatever the other deliveries were. */
  lemma {:induction false} Independence(env: Environment, s: Store, jobs: seq<Job>, key: SubKey, used: set<UUID>)
    requires Good(env, s.rows) && SoundRun(env, jobs) && WebhookRun(jobs) && ProperKey(key)
    requires s.rows.Keys <= used && FreshRun(used, jobs)
    requires DistinctKeys(jobs) && NoneRecorded(s, jobs)
    ensures Find(Run(s, jobs).rows, key) == FoldRow(Find(s.rows, key), Only(jobs, key))
    decreases |jobs|
  {
    if jobs == [] {
    } else {
      var job, rest := jobs[0], jobs[1..];
      var after := Perform(s, job).store;
      assert Sound(env, job) && IsWebhook(job);
      PerformKeepsGood(env, s, job);
      OnlyNewIDs(env, s, job);
      EventsOfOneJob(s, job);
      forall i | 0 <= i < |rest| && RecordedKey(rest[i]).Some?
        ensures RecordedKey(rest[i]).value !in after.events
      {
        assert rest[i] == jobs[i + 1];
      }
      assert DistinctKeys(rest) by {
        assert forall i :: 0 <= i < |rest| ==> rest[i] == jobs[i + 1];
      }
      Independence(env, after, rest, key, used + NewIDs(job));
      JobSeenThroughKey(env, s, job, key);
      if IsFor(job, key) {
        assert ([job] + Only(rest, key))[1..] == Only(rest, key);
      }
    }
  }

  lemma EventsOfOneJob(s: Store, job: Job)
    ensures forall k :: k in Perform(s, job).store.events ==> k in s.events || RecordedKey(job) == Some(k)
  {
  }

  /** The same for every run of webhooks, duplicates and failures included: erase those first. */
  lemma IndependenceOfAnyRun(env: Environment, s: Store, jobs: seq<Job>, key: SubKey, used: set<UUID>)
    requires Good(env, s.rows) && SoundRun(env, jobs) && WebhookRun(jobs) && ProperKey(key)
    requires s.rows.Keys <= used && FreshRun(used, jobs)
    ensures Find(Run(s, jobs).rows, key) == FoldRow(Find(s.rows, key), Only(Erased(s, jobs), key))
  {
    Erasure(s, jobs);
    var kept := Erased(s, jobs);
    forall i | 0 <= i < |kept|
      ensures Sound(env, kept[i]) && IsWebhook(kept[i])
    {
      assert kept[i] in jobs;
    }
    ErasedIsFresh(s, jobs, used);
    Independence(env, s, kept, key, used);
  }

  lemma {:induction false} ErasedIsFresh(s: Store, jobs: seq<Job>, used: set<UUID>)
    requires FreshRun(used, jobs)
    ensures FreshRun(used, Erased(s, jobs))
    decreases |jobs|
  {
    if jobs == [] {
    } else {
      var job, rest := jobs[0], jobs[1..];
      if Erasable(s, job) {
        FewerUsed(used, used + NewIDs(job), rest);
        ErasedIsFresh(s, rest, used);
      } else {
        ErasedIsFresh(Perform(s, job).store, rest, used + NewIDs(job));
        assert ([job] + Erased(Perform(s, job).store, rest))[1..] == Erased(Perform(s, job).store, rest);
      }
    }
  }

  lemma {:induction false} FewerUsed(used: set<UUID>, more: set<UUID>, jobs: seq<Job>)
    requires used <= more && FreshRun(more, jobs)
    ensures FreshRun(used, jobs)
    decreases |jobs|
  {
    if jobs == [] {
    } else {
      FewerUsed(used + NewIDs(jobs[0]), more + NewIDs(jobs[0]), jobs[1..]);
    }
  }

  /** Two deliveries about different events and different subscriptions. */
  predicate Unrelated(a: Job, b: Job) {
    && (RecordedKey(a).Some? ==> RecordedKey(a) != RecordedKey(b))
    && (a.Hook? && b.Hook? ==> a.change.key != b.change.key)
    && NewIDs(a) !! NewIDs(b)
  }

  /** A webhook job leaves an unrelated webhook job's outcome as it is: it fails or not, and has its
      effect or not, just as it would have before. */
  lemma UnrelatedSeesTheSame(env: Environment, s: Store, a: Job, b: Job)
    requires Good(env, s.rows) && Sound(env, a) && Sound(env, b) && IsWebhook(a) && b.Hook?
    requires Unrelated(a, b) && (NewIDs(a) + NewIDs(b)) !! s.rows.Keys
    ensures var after := Perform(s, a).store;
            && (b.event.key in after.events <==> b.event.key in s.events)
            && EffectIn(after, b.change) == EffectIn(s, b.change)
            && (HookFails(after, b.event, b.change, b.fault) <==> HookFails(s, b.event, b.change, b.fault))
  {
    EventsOfOneJob(s, a);
    EventsOnlyGrow(s, a);
    OnlyNewIDs(env, s, a);
    FindAnswers(s.rows, b.change.key);
    HookEffectIsWellFormed(env, Find(s.rows, b.change.key), b.change);
    if a.Hook? {
      HookOutcome(env, s, a.event, a.change, a.fault);
      FindAnswers(s.rows, a.change.key);
      HookEffectIsWellFormed(env, Find(s.rows, a.change.key), a.change);
      EffectIsLocal(env, s, a.change, b.change.key);
    }
  }

  /** Unrelated deliveries commute: both orders leave the same two tables and give the same answers. */
  lemma UnrelatedCommute(env: Environment, s: Store, a: Job, b: Job)
    requires Good(env, s.rows) && Sound(env, a) && Sound(env, b) && IsWebhook(a) && IsWebhook(b)
    requires Unrelated(a, b) && (NewIDs(a) + NewIDs(b)) !! s.rows.Keys
    ensures Perform(Perform(s, a).store, b).store == Perform(Perform(s, b).store, a).store
    ensures Perform(Perform(s, a).store, b).reply == Perform(s, b).reply
    ensures Perform(Perform(s, b).store, a).reply == Perform(s, a).reply
  {
    if a.Hook? && b.Hook? {
      HooksCommute(env, s, a, b);
    } else if a.Hook? {
      PassiveCommutes(env, s, a, b);
    } else if b.Hook? {
      PassiveCommutes(env, s, b, a);
    } else if a.Note? && b.Note? {
      var e, f := a.event, b.event;
      if a.fault != RecordFails && b.fault != RecordFails {
        assert s.events[e.key := e][f.key := f] == s.events[f.key := f][e.key := e];
      }
    }
  }

  lemma HooksCommute(env: Environment, s: Store, a: Job, b: Job)
    requires Good(env, s.rows) && Sound(env, a) && Sound(env, b) && a.Hook? && b.Hook?
    requires Unrelated(a, b) && (NewIDs(a) + NewIDs(b)) !! s.rows.Keys
    ensures Perform(Perform(s, a).store, b).store == Perform(Perform(s, b).store, a).store
    ensures Perform(Perform(s, a).store, b).reply == Perform(s, b).reply
    ensures Perform(Perform(s, b).store, a).reply == Perform(s, a).reply
  {
    var sa, sb := Perform(s, a).store, Perform(s, b).store;
    HookReplyDependsOnEffect(env, s, a, b);
    HookReplyDependsOnEffect(env, s, b, a);
    PerformKeepsGood(env, s, a);
    PerformKeepsGood(env, s, b);
    HookOutcome(env, s, a.event, a.change, a.fault);
    HookOutcome(env, s, b.event, b.change, b.fault);
    HookOutcome(env, sa, b.event, b.change, b.fault);
    HookOutcome(env, sb, a.event, a.change, a.fault);
    UnrelatedSeesTheSame(env, s, a, b);
    UnrelatedSeesTheSame(env, s, b, a);
    if !HookFails(s, a.event, a.change, a.fault) && !HookFails(s, b.event, b.change, b.fault) {
      ResultsCommute(env, s, a, b);
    }
  }

  lemma HookReplyDependsOnEffect(env: Environment, s: Store, a: Job, b: Job)
    requires Good(env, s.rows) && Sound(env, a) && Sound(env, b) && a.Hook? && b.Hook?
    requires Unrelated(a, b) && (NewIDs(a) + NewIDs(b)) !! s.rows.Keys
    ensures Perform(Perform(s, a).store, b).reply == Perform(s, b).reply
  {
    var after := Perform(s, a).store;
    PerformKeepsGood(env, s, a);
    OnlyNewIDs(env, s, a);
    HookOutcome(env, s, b.event, b.change, b.fault);
    HookOutcome(env, after, b.event, b.change, b.fault);
    UnrelatedSeesTheSame(env, s, a, b);
    FindAnswers(s.rows, b.change.key);
    HookEffectIsWellFormed(env, Find(s.rows, b.change.key), b.change);
  }

  lemma EffectsTouchDifferentRows(env: Environment, s: Store, a: Job, b: Job)
    requires Good(env, s.rows) && Sound(env, a) && Sound(env, b) && a.Hook? && b.Hook?
    requires Unrelated(a, b) && (NewIDs(a) + NewIDs(b)) !! s.rows.Keys
    ensures var fa, fb := EffectIn(s, a.change), EffectIn(s, b.change);
            !fa.Keep? && !fb.Keep? ==> fa.row.id != fb.row.id
  {
  }

  lemma ResultsCommute(env: Environment, s: Store, a: Job, b: Job)
    requires Good(env, s.rows) && Sound(env, a) && Sound(env, b) && a.Hook? && b.Hook?
    requires Unrelated(a, b) && (NewIDs(a) + NewIDs(b)) !! s.rows.Keys
    ensures var sa, sb := HookResult(s, a.event, a.change), HookResult(s, b.event, b.change);
            EffectIn(sa, b.change) == EffectIn(s, b.change) && EffectIn(sb, a.change) == EffectIn(s, a.change)
            ==> HookResult(sa, b.event, b.change) == HookResult(sb, a.event, a.change)
  {
    EffectsTouchDifferentRows(env, s, a, b);
    EffectsCommute(s.rows, EffectIn(s, a.change), EffectIn(s, b.change));
    EventsCommute(s.events, a.event, b.event);
  }

  lemma EffectsCommute(rows: Rows, fa: Effect, fb: Effect)
    requires !fa.Keep? && !fb.Keep? ==> fa.row.id != fb.row.id
    ensures After(After(rows, fa), fb) == After(After(rows, fb), fa)
  {
  }

  lemma EventsCommute(events: map<EventKey, Event>, e: Event, f: Event)
    requires e.key != f.key
    ensures events[e.key := e][f.key := f] == events[f.key := f][e.key := e]
  {
  }

  /** A webhook does the same beside an event it is not about. */
  lemma HookBesideEvent(s: Store, f: Event, a: Job)
    requires a.Hook? && a.event.key != f.key
    ensures var beside, alone := Perform(WithEvent(s, f), a), Perform(s, a);
            && beside.reply == alone.reply
            && (alone.reply.Err? ==> beside.store == WithEvent(s, f) && alone.store == s)
            && beside.store == WithEvent(alone.store, f)
  {
    EventsCommute(s.events, a.event, f);
  }

  /** A job that touches no row commutes with a webhook about another event. */
  lemma PassiveCommutes(env: Environment, s: Store, a: Job, b: Job)
    requires Good(env, s.rows) && Sound(env, a) && a.Hook? && IsWebhook(b) && !b.Hook?
    requires Unrelated(a, b) && NewIDs(a) !! s.rows.Keys
    ensures Perform(Perform(s, a).store, b).store == Perform(Perform(s, b).store, a).store
    ensures Perform(Perform(s, a).store, b).reply == Perform(s, b).reply
    ensures Perform(Perform(s, b).store, a).reply == Perform(s, a).reply
  {
    if b.Note? && b.fault != RecordFails {
      EventsOfOneJob(s, a);
      EventsOnlyGrow(s, a);
      HookBesideEvent(s, b.event, a);
    }
  }
}
