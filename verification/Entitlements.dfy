/** The allowlist changes answers, never tables: two services that differ only in it. */
module Entitlements {
  import opened Domain
  import opened Repository
  import opened Jobs
  import opened Plans
  import opened Service
  import opened Invariants
  import opened Ownership
  import opened ServiceRuns

  /** A call that may change the tables, or a read of a user's entitlement. */
  datatype Call = Act(request: Request) | Read(user: UUID, now: Time, fails: bool)

  ghost function JobsOf(cfg: Config, calls: seq<Call>): seq<Job> {
    seq(|calls|, i requires 0 <= i < |calls| => JobOf(cfg, calls[i]))
  }

  ghost function JobOf(cfg: Config, c: Call): Job {
    if c.Act? then Plan(cfg, c.request) else Ignore
  }

  /** An answer a service with this allowlist may give to a call on the tables `s`. */
  ghost predicate MayAnswer(cfg: Config, allowlist: set<UUID>, s: Store, c: Call, a: Answer) {
    match c
    case Act(request) => a == AnswerTo(allowlist, request, Perform(s, Plan(cfg, request)).reply)
    case Read(user, now, fails) => MayRead(allowlist, s, user, now, fails, a)
  }

  ghost predicate MayServe(cfg: Config, allowlist: set<UUID>, s: Store, calls: seq<Call>, answers: seq<Answer>)
    decreases |calls|
  {
    && |answers| == |calls|
    && (calls == []
        || (MayAnswer(cfg, allowlist, s, calls[0], answers[0])
            && MayServe(cfg, allowlist, Perform(s, JobOf(cfg, calls[0])).store, calls[1..], answers[1..])))
  }

  method AnswerCall(svc: SubscriptionService, c: Call) returns (a: Answer)
    requires Good(svc.cfg.expectedEnv, svc.repo.rows)
    modifies svc.repo
    ensures svc.repo.Contents() == Perform(old(svc.repo.Contents()), JobOf(svc.cfg, c)).store
    ensures MayAnswer(svc.cfg, svc.allowlist, old(svc.repo.Contents()), c, a)
    ensures Good(svc.cfg.expectedEnv, svc.repo.rows)
  {
    match c {
      case Act(request) => a := Handle(svc, request);
      case Read(user, now, fails) => a := ServiceRuns.Read(svc, user, now, fails);
    }
  }

  /** The service, called again and again. */
  method Serve(svc: SubscriptionService, calls: seq<Call>) returns (answers: seq<Answer>)
    requires Good(svc.cfg.expectedEnv, svc.repo.rows)
    modifies svc.repo
    ensures svc.repo.Contents() == Run(old(svc.repo.Contents()), JobsOf(svc.cfg, calls))
    ensures MayServe(svc.cfg, svc.allowlist, old(svc.repo.Contents()), calls, answers)
    decreases |calls|
  {
    if calls == [] {
      return [];
    }
    assert JobsOf(svc.cfg, calls)[1..] == JobsOf(svc.cfg, calls[1..]);
    var first := AnswerCall(svc, calls[0]);
    var rest := Serve(svc, calls[1..]);
    answers := [first] + rest;
    assert answers[1..] == rest;
  }

  predicate IsListed(c: Call, allowlist: set<UUID>) {
    match c
    case Act(request) => Subject(request).Some? && Subject(request).value.0 in allowlist
    case Read(user, _, _) => user in allowlist
  }

  /** The answers of two services to one call, where they agree on the subscription: an entitlement goes with
      both or with neither, listed users are pro, and the two differ only by what the lists add. */
  predicate DifferByList(c: Call, one: set<UUID>, two: set<UUID>, a: Answer, b: Answer) {
    && a.result == b.result
    && (a.entitlement.Some? <==> b.entitlement.Some?)
    && (a.entitlement.Some? ==>
          && (IsListed(c, one) ==> a.entitlement.value == Pro)
          && (IsListed(c, two) ==> b.entitlement.value == Pro)
          && (a.entitlement.value == Pro || IsListed(c, two) <==> b.entitlement.value == Pro || IsListed(c, one)))
  }

  /** The answers of two services to one call: they differ by the lists, except that reads may choose
      differently among a user's equally recent rows. */
  ghost predicate Alike(c: Call, one: set<UUID>, two: set<UUID>, a: Answer, b: Answer) {
    || DifferByList(c, one, two, a, b)
    || (&& c.Read? && a.result.Ok? && b.result.Ok? && a.result.value.Some? && b.result.value.Some?
        && a.result.value.value.userID == b.result.value.value.userID == c.user
        && a.result.value.value.updatedAt == b.result.value.value.updatedAt)
  }

  /** No two rows were updated at the same instant. */
  ghost predicate TimesDiffer(s: Store) {
    forall a, b :: a in s.rows && b in s.rows && a != b ==> s.rows[a].updatedAt != s.rows[b].updatedAt
  }

  /** A user has a latest row exactly if they have rows, and one only if update times differ. */
  lemma LatestIsThere(s: Store, user: UUID)
    ensures (exists row :: IsLatest(s.rows, user, row)) <==> HasRows(s.rows, user)
    ensures TimesDiffer(s) ==>
              forall one, two :: IsLatest(s.rows, user, one) && IsLatest(s.rows, user, two) ==> one == two
  {
    var mine := set id | id in s.rows && s.rows[id].userID == user;
    assert forall id :: id in s.rows && s.rows[id].userID == user ==> id in mine;
    if mine != {} {
      var best := LatestExists(s.rows, user, mine);
      assert IsLatest(s.rows, user, s.rows[best]);
    }
  }

  lemma AnswersAreAlike(cfg: Config, one: set<UUID>, two: set<UUID>, s: Store, c: Call, a: Answer, b: Answer)
    requires MayAnswer(cfg, one, s, c, a) && MayAnswer(cfg, two, s, c, b)
    ensures Alike(c, one, two, a, b)
    ensures TimesDiffer(s) ==> DifferByList(c, one, two, a, b)
  {
    if c.Read? && !c.fails && a.result.value.Some? && b.result.value.Some? {
      var x :| x in s.rows && s.rows[x] == a.result.value.value;
      var y :| y in s.rows && s.rows[y] == b.result.value.value;
    }
  }

  lemma PutKeepsTimesDistinct(s: Store, row: Row, from: Time)
    requires OlderThan(s, from) && TimesDiffer(s) && from <= row.updatedAt
    ensures TimesDiffer(s.(rows := s.rows[row.id := row]))
  {
  }

  /** With a strictly increasing clock update times stay distinct. */
  lemma JobKeepsTimesDistinct(env: Environment, s: Store, job: Job, from: Time)
    requires Good(env, s.rows) && Sound(env, job) && OlderThan(s, from) && TimesDiffer(s)
    requires ClockOf(job).Some? ==> from <= ClockOf(job).value
    ensures TimesDiffer(Perform(s, job).store)
  {
    match job {
      case Hook(event, ch, fault) =>
        HookOutcome(env, s, event, ch, fault);
        EffectIsStamped(Find(s.rows, ch.key), ch);
        if !EffectIn(s, ch).Keep? {
          PutKeepsTimesDistinct(s, EffectIn(s, ch).row, from);
        }
      case Check(p, fault) =>
        CheckOutcome(env, s, p, fault);
        PutKeepsTimesDistinct(s, StoredPurchase(Find(s.rows, p.key), p), from);
      case _ =>
    }
  }

  /** Whatever two services with different allowlists answer to the same calls on the same tables, they
      answer alike. */
  lemma {:induction false} ServicesAnswerAlike(cfg: Config, one: set<UUID>, two: set<UUID>, s: Store,
      calls: seq<Call>, first: seq<Answer>, second: seq<Answer>)
    requires MayServe(cfg, one, s, calls, first) && MayServe(cfg, two, s, calls, second)
    ensures forall i :: 0 <= i < |calls| ==> Alike(calls[i], one, two, first[i], second[i])
    decreases |calls|
  {
    if calls == [] {
    } else {
      AnswersAreAlike(cfg, one, two, s, calls[0], first[0], second[0]);
      ServicesAnswerAlike(cfg, one, two, Perform(s, JobOf(cfg, calls[0])).store, calls[1..], first[1..], second[1..]);
      assert forall i :: 0 < i < |calls| ==>
          calls[i] == calls[1..][i - 1] && first[i] == first[1..][i - 1] && second[i] == second[1..][i - 1];
    }
  }

  lemma AllDiffer(one: set<UUID>, two: set<UUID>, calls: seq<Call>, first: seq<Answer>, second: seq<Answer>)
    requires |calls| == |first| == |second| > 0 && DifferByList(calls[0], one, two, first[0], second[0])
    requires forall i :: 0 <= i < |calls[1..]| ==>
                           DifferByList(calls[1..][i], one, two, first[1..][i], second[1..][i])
    ensures forall i :: 0 <= i < |calls| ==> DifferByList(calls[i], one, two, first[i], second[i])
  {
    forall i | 0 < i < |calls|
      ensures DifferByList(calls[i], one, two, first[i], second[i])
    {
      assert calls[i] == calls[1..][i - 1] && first[i] == first[1..][i - 1] && second[i] == second[1..][i - 1];
    }
  }

  /** If the clock readings increase strictly, the answers differ by the lists alone. */
  lemma {:induction false} AllowlistsDiffer(cfg: Config, one: set<UUID>, two: set<UUID>, s: Store, calls: seq<Call>,
      first: seq<Answer>, second: seq<Answer>, from: Time, end: Time)
    requires Good(cfg.expectedEnv, s.rows) && OlderThan(s, from) && TimesDiffer(s)
    requires Ticking(from, JobsOf(cfg, calls), end)
    requires MayServe(cfg, one, s, calls, first) && MayServe(cfg, two, s, calls, second)
    ensures forall i :: 0 <= i < |calls| ==> DifferByList(calls[i], one, two, first[i], second[i])
    decreases |calls|
  {
    if calls == [] {
    } else {
      var job := JobOf(cfg, calls[0]);
      AnswersAreAlike(cfg, one, two, s, calls[0], first[0], second[0]);
      TickingOn(cfg, calls, from, end);
      JobTicks(cfg, s, calls[0], from);
      AllowlistsDiffer(cfg, one, two, Perform(s, job).store, calls[1..], first[1..], second[1..], NextTick(job, from), end);
      AllDiffer(one, two, calls, first, second);
    }
  }

  /** The earliest next clock reading. */
  function NextTick(job: Job, from: Time): Time {
    if ClockOf(job).Some? then ClockOf(job).value + 1 else from
  }

  lemma TickingOn(cfg: Config, calls: seq<Call>, from: Time, end: Time)
    requires calls != [] && Ticking(from, JobsOf(cfg, calls), end)
    ensures var job := JobOf(cfg, calls[0]);
            && (ClockOf(job).Some? ==> from <= ClockOf(job).value)
            && Ticking(NextTick(job, from), JobsOf(cfg, calls[1..]), end)
  {
    assert JobsOf(cfg, calls)[0] == JobOf(cfg, calls[0]) && JobsOf(cfg, calls)[1..] == JobsOf(cfg, calls[1..]);
  }

  lemma JobTicks(cfg: Config, s: Store, c: Call, from: Time)
    requires Good(cfg.expectedEnv, s.rows) && OlderThan(s, from) && TimesDiffer(s)
    requires ClockOf(JobOf(cfg, c)).Some? ==> from <= ClockOf(JobOf(cfg, c)).value
    ensures var job := JobOf(cfg, c);
            var after := Perform(s, job).store;
            && Good(cfg.expectedEnv, after.rows) && TimesDiffer(after)
            && OlderThan(after, NextTick(job, from))
  {
    var job := JobOf(cfg, c);
    if c.Act? {
      PlanIsSound(cfg, c.request);
    }
    PerformKeepsGood(cfg.expectedEnv, s, job);
    JobStampsRows(cfg.expectedEnv, s, job, from);
    JobKeepsTimesDistinct(cfg.expectedEnv, s, job, from);
  }

  /** Non-interference: two services with the same configuration, their own tables with the same contents,
      and any allowlists, fed the same calls, hold the same tables afterwards and have answered alike. */
  method ServeBoth(one: SubscriptionService, two: SubscriptionService, calls: seq<Call>, ghost from: Time,
      ghost end: Time) returns (first: seq<Answer>, second: seq<Answer>)
    requires one.cfg == two.cfg && one.repo != two.repo && one.repo.Contents() == two.repo.Contents()
    requires Good(one.cfg.expectedEnv, one.repo.rows)
    modifies one.repo, two.repo
    ensures one.repo.Contents() == two.repo.Contents()
    ensures |first| == |second| == |calls|
    ensures forall i :: 0 <= i < |calls| ==> Alike(calls[i], one.allowlist, two.allowlist, first[i], second[i])
    ensures var s := old(one.repo.Contents());
            OlderThan(s, from) && TimesDiffer(s) && Ticking(from, JobsOf(one.cfg, calls), end) ==>
              forall i :: 0 <= i < |calls| ==>
                            DifferByList(calls[i], one.allowlist, two.allowlist, first[i], second[i])
  {
    ghost var s := one.repo.Contents();
    first := Serve(one, calls);
    second := Serve(two, calls);
    ServicesAnswerAlike(one.cfg, one.allowlist, two.allowlist, s, calls, first, second);
    if OlderThan(s, from) && TimesDiffer(s) && Ticking(from, JobsOf(one.cfg, calls), end) {
      AllowlistsDiffer(one.cfg, one.allowlist, two.allowlist, s, calls, first, second, from, end);
    }
  }
}
