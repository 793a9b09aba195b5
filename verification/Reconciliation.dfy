/** Reconciling a locally verified App Store purchase with what the App Store Server API says. */
module Reconciliation {
  import opened Wrappers
  import opened Domain
  import opened StatusMapping
  import opened AppleStore

  /** What reconciliation knows about the service: its verifier, bundle and environment. */
  datatype Context = Context(verifier: Verifier, bundleID: string, expectedEnv: Environment)

  datatype Verdict =
    | Unsigned
    | VerifyFailed
    | OtherPurchase
    | OtherBundle
    | OtherEnvironment
    | Accepted

  /** Whether a candidate may be selected, and if not, the first reason why. */
  function Judge(ctx: Context, local: TransactionInfo, c: LastTransaction): Verdict {
    if c.signedTransactionInfo == "" then Unsigned
    else
      match ctx.verifier.transaction(c.signedTransactionInfo)
      case None => VerifyFailed
      case Some(tx) =>
        if tx.originalTransactionID != local.originalTransactionID then OtherPurchase
        else if tx.bundleID != ctx.bundleID then OtherBundle
        else if MapEnvironment(tx.environment) != ctx.expectedEnv then OtherEnvironment
        else Accepted
  }

  function HowMany(ctx: Context, local: TransactionInfo, cs: seq<LastTransaction>, v: Verdict): nat {
    if cs == [] then 0
    else HowMany(ctx, local, cs[..|cs| - 1], v) + if Judge(ctx, local, cs[|cs| - 1]) == v then 1 else 0
  }

  datatype Tally = Tally(
    candidates: nat,
    signed: nat,
    verifyFailures: nat,
    originalIDMismatches: nat,
    bundleMismatches: nat,
    environmentMismatches: nat)

  /** All candidates of a response, group after group. */
  function Flatten(data: seq<SubscriptionData>): seq<LastTransaction> {
    if data == [] then [] else data[0].lastTransactions + Flatten(data[1..])
  }

  /** Candidate `i` is acceptable, no acceptable one is signed later, and none before it is signed as late. */
  predicate IsEarliestLatest(ctx: Context, local: TransactionInfo, cs: seq<LastTransaction>, i: nat) {
    && i < |cs|
    && Judge(ctx, local, cs[i]) == Accepted
    && forall j :: 0 <= j < |cs| && Judge(ctx, local, cs[j]) == Accepted ==>
         && SignedDate(ctx, cs[j]) <= SignedDate(ctx, cs[i])
         && (SignedDate(ctx, cs[j]) == SignedDate(ctx, cs[i]) ==> i <= j)
  }

  function SignedDate(ctx: Context, c: LastTransaction): int {
    match ctx.verifier.transaction(c.signedTransactionInfo)
    case None => 0
    case Some(tx) => tx.signedDate
  }

  datatype Selection = Selection(candidate: LastTransaction, transaction: TransactionInfo)

  /** The candidate reconciliation has to select. */
  ghost function Choice(ctx: Context, local: TransactionInfo, cs: seq<LastTransaction>): Option<Selection> {
    if exists i: nat :: IsEarliestLatest(ctx, local, cs, i) then
      var i: nat :| IsEarliestLatest(ctx, local, cs, i);
      Some(Selection(cs[i], ctx.verifier.transaction(cs[i].signedTransactionInfo).value))
    else None
  }

  lemma {:induction false} ChoiceExists(ctx: Context, local: TransactionInfo, cs: seq<LastTransaction>)
    ensures (exists i: nat :: IsEarliestLatest(ctx, local, cs, i))
            <==> exists j :: 0 <= j < |cs| && Judge(ctx, local, cs[j]) == Accepted
  {
    if cs == [] {
    } else {
      var init := cs[..|cs| - 1];
      ChoiceExists(ctx, local, init);
      if i: nat :| IsEarliestLatest(ctx, local, init, i) {
        assert cs[i] == init[i];
        if Judge(ctx, local, cs[|cs| - 1]) == Accepted && SignedDate(ctx, cs[|cs| - 1]) > SignedDate(ctx, cs[i]) {
          assert forall j :: 0 <= j < |init| ==> cs[j] == init[j];
          assert IsEarliestLatest(ctx, local, cs, |cs| - 1);
        } else {
          assert IsEarliestLatest(ctx, local, cs, i);
        }
      } else {
        assert forall j :: 0 <= j < |init| ==> cs[j] == init[j];
        if Judge(ctx, local, cs[|cs| - 1]) == Accepted {
          assert IsEarliestLatest(ctx, local, cs, |cs| - 1);
        }
      }
    }
  }

  /** There is one candidate to select, so the choice is that candidate. */
  lemma ChoiceIs(ctx: Context, local: TransactionInfo, cs: seq<LastTransaction>, i: nat)
    requires IsEarliestLatest(ctx, local, cs, i)
    ensures Choice(ctx, local, cs) == Some(Selection(cs[i], ctx.verifier.transaction(cs[i].signedTransactionInfo).value))
  {
  }

  /** Adding a candidate replaces the choice exactly when it is acceptable and signed strictly later. */
  lemma ChoiceAfter(ctx: Context, local: TransactionInfo, cs: seq<LastTransaction>, c: LastTransaction)
    ensures Choice(ctx, local, cs + [c]) ==
            if Judge(ctx, local, c) == Accepted
               && (Choice(ctx, local, cs).None?
                   || SignedDate(ctx, c) > Choice(ctx, local, cs).value.transaction.signedDate) then
              Some(Selection(c, ctx.verifier.transaction(c.signedTransactionInfo).value))
            else Choice(ctx, local, cs)
  {
    var more := cs + [c];
    assert forall j :: 0 <= j < |cs| ==> more[j] == cs[j];
    ChoiceExists(ctx, local, cs);
    if i: nat :| IsEarliestLatest(ctx, local, cs, i) {
      ChoiceIs(ctx, local, cs, i);
      if Judge(ctx, local, c) == Accepted && SignedDate(ctx, c) > SignedDate(ctx, cs[i]) {
        ChoiceIs(ctx, local, more, |cs|);
      } else {
        assert IsEarliestLatest(ctx, local, more, i);
        ChoiceIs(ctx, local, more, i);
      }
    } else if Judge(ctx, local, c) == Accepted {
      ChoiceIs(ctx, local, more, |cs|);
    } else {
      ChoiceExists(ctx, local, more);
    }
  }

  /** Every signed candidate is accepted or counted once under the first test it fails. */
  lemma {:induction false} TallyConserves(ctx: Context, local: TransactionInfo, cs: seq<LastTransaction>)
    ensures |cs| == HowMany(ctx, local, cs, Unsigned) + HowMany(ctx, local, cs, VerifyFailed)
                    + HowMany(ctx, local, cs, OtherPurchase) + HowMany(ctx, local, cs, OtherBundle)
                    + HowMany(ctx, local, cs, OtherEnvironment) + HowMany(ctx, local, cs, Accepted)
    ensures HowMany(ctx, local, cs, Accepted) == 0 <==> Choice(ctx, local, cs).None?
  {
    if cs == [] {
    } else {
      var init, last := cs[..|cs| - 1], cs[|cs| - 1];
      TallyConserves(ctx, local, init);
      ChoiceAfter(ctx, local, init, last);
      assert cs == init + [last];
    }
  }

  predicate Counts(ctx: Context, local: TransactionInfo, cs: seq<LastTransaction>, t: Tally) {
    && t.candidates == |cs|
    && t.signed == |cs| - HowMany(ctx, local, cs, Unsigned)
    && t.verifyFailures == HowMany(ctx, local, cs, VerifyFailed)
    && t.originalIDMismatches == HowMany(ctx, local, cs, OtherPurchase)
    && t.bundleMismatches == HowMany(ctx, local, cs, OtherBundle)
    && t.environmentMismatches == HowMany(ctx, local, cs, OtherEnvironment)
  }

  /** The tally after one more candidate. */
  function Bumped(t: Tally, v: Verdict): Tally {
    var more := t.(candidates := t.candidates + 1);
    var signed := more.(signed := t.signed + 1);
    match v
    case Unsigned => more
    case VerifyFailed => signed.(verifyFailures := t.verifyFailures + 1)
    case OtherPurchase => signed.(originalIDMismatches := t.originalIDMismatches + 1)
    case OtherBundle => signed.(bundleMismatches := t.bundleMismatches + 1)
    case OtherEnvironment => signed.(environmentMismatches := t.environmentMismatches + 1)
    case Accepted => signed
  }

  lemma CountsAfter(ctx: Context, local: TransactionInfo, cs: seq<LastTransaction>, c: LastTransaction, t: Tally)
    requires Counts(ctx, local, cs, t)
    ensures Counts(ctx, local, cs + [c], Bumped(t, Judge(ctx, local, c)))
  {
    assert (cs + [c])[..|cs|] == cs;
  }

  /** A scan over candidates: what is selected so far, and the counters. */
  datatype Scan = Scan(selected: Option<Selection>, tally: Tally)

  const START: Scan := Scan(None, Tally(0, 0, 0, 0, 0, 0))

  /** The scan after one more candidate. */
  function Next(ctx: Context, local: TransactionInfo, st: Scan, c: LastTransaction): Scan {
    var v := Judge(ctx, local, c);
    var takes := v == Accepted
                 && (st.selected.None? || SignedDate(ctx, c) > st.selected.value.transaction.signedDate);
    Scan(if takes then Some(Selection(c, ctx.verifier.transaction(c.signedTransactionInfo).value)) else st.selected,
         Bumped(st.tally, v))
  }

  function ScanGroup(ctx: Context, local: TransactionInfo, st: Scan, cs: seq<LastTransaction>): Scan
    decreases |cs|
  {
    if cs == [] then st else ScanGroup(ctx, local, Next(ctx, local, st, cs[0]), cs[1..])
  }

  function ScanAll(ctx: Context, local: TransactionInfo, st: Scan, data: seq<SubscriptionData>): Scan
    decreases |data|
  {
    if data == [] then st else ScanAll(ctx, local, ScanGroup(ctx, local, st, data[0].lastTransactions), data[1..])
  }

  lemma ScanGroupStep(ctx: Context, local: TransactionInfo, st: Scan, cs: seq<LastTransaction>, i: nat)
    requires i < |cs|
    ensures ScanGroup(ctx, local, st, cs[i..]) == ScanGroup(ctx, local, Next(ctx, local, st, cs[i]), cs[i + 1..])
  {
    assert cs[i..][1..] == cs[i + 1..];
  }

  lemma ScanAllStep(ctx: Context, local: TransactionInfo, st: Scan, data: seq<SubscriptionData>, i: nat)
    requires i < |data|
    ensures ScanAll(ctx, local, st, data[i..])
            == ScanAll(ctx, local, ScanGroup(ctx, local, st, data[i].lastTransactions), data[i + 1..])
  {
    assert data[i..][1..] == data[i + 1..];
  }

  /** What has to be selected and counted after these candidates. */
  ghost predicate IsRight(ctx: Context, local: TransactionInfo, cs: seq<LastTransaction>, st: Scan) {
    st.selected == Choice(ctx, local, cs) && Counts(ctx, local, cs, st.tally)
  }

  lemma NextIsRight(ctx: Context, local: TransactionInfo, cs: seq<LastTransaction>, st: Scan, c: LastTransaction)
    requires IsRight(ctx, local, cs, st)
    ensures IsRight(ctx, local, cs + [c], Next(ctx, local, st, c))
  {
    ChoiceAfter(ctx, local, cs, c);
    CountsAfter(ctx, local, cs, c, st.tally);
  }

  lemma MoveOne(done: seq<LastTransaction>, cs: seq<LastTransaction>)
    requires cs != []
    ensures done + [cs[0]] + cs[1..] == done + cs
  {
  }

  lemma {:induction false} ScanGroupIsRight(ctx: Context, local: TransactionInfo, done: seq<LastTransaction>, st: Scan,
      cs: seq<LastTransaction>)
    requires IsRight(ctx, local, done, st)
    ensures IsRight(ctx, local, done + cs, ScanGroup(ctx, local, st, cs))
    decreases |cs|
  {
    if cs == [] {
      assert done + cs == done;
    } else {
      NextIsRight(ctx, local, done, st, cs[0]);
      ScanGroupIsRight(ctx, local, done + [cs[0]], Next(ctx, local, st, cs[0]), cs[1..]);
      MoveOne(done, cs);
    }
  }

  lemma MoveGroup(done: seq<LastTransaction>, data: seq<SubscriptionData>)
    requires data != []
    ensures done + data[0].lastTransactions + Flatten(data[1..]) == done + Flatten(data)
  {
  }

  /** The scan over all groups selects the candidate that has to be selected, and counts right. */
  lemma {:induction false} ScanAllIsRight(ctx: Context, local: TransactionInfo, done: seq<LastTransaction>, st: Scan,
      data: seq<SubscriptionData>)
    requires IsRight(ctx, local, done, st)
    ensures IsRight(ctx, local, done + Flatten(data), ScanAll(ctx, local, st, data))
    decreases |data|
  {
    if data == [] {
      assert done + Flatten(data) == done;
    } else {
      var group := data[0].lastTransactions;
      ScanGroupIsRight(ctx, local, done, st, group);
      ScanAllIsRight(ctx, local, done + group, ScanGroup(ctx, local, st, group), data[1..]);
      MoveGroup(done, data);
    }
  }

  /** The scan of a whole response: what it selects and counts, and that it loses no signed candidate. */
  lemma ScanIsRight(ctx: Context, local: TransactionInfo, data: seq<SubscriptionData>)
    ensures var st := ScanAll(ctx, local, START, data);
            && st.selected == Choice(ctx, local, Flatten(data)) && Counts(ctx, local, Flatten(data), st.tally)
            && st.tally.signed == st.tally.verifyFailures + st.tally.originalIDMismatches + st.tally.bundleMismatches
                                  + st.tally.environmentMismatches + HowMany(ctx, local, Flatten(data), Accepted)
  {
    assert IsRight(ctx, local, [], START);
    ScanAllIsRight(ctx, local, [], START, data);
    assert [] + Flatten(data) == Flatten(data);
    TallyConserves(ctx, local, Flatten(data));
  }

  /** The nested loops over groups and candidates: what they select, and what they count. */
  method SelectCandidate(ctx: Context, local: TransactionInfo, response: SubscriptionResponse)
    returns (selected: Option<Selection>, tally: Tally)
    ensures selected == Choice(ctx, local, Flatten(response.data))
    ensures Counts(ctx, local, Flatten(response.data), tally)
    ensures tally.signed == tally.verifyFailures + tally.originalIDMismatches + tally.bundleMismatches
                            + tally.environmentMismatches + HowMany(ctx, local, Flatten(response.data), Accepted)
  {
    selected, tally := ScanResponse(ctx, local, response);
    ScanIsRight(ctx, local, response.data);
  }

  method ScanResponse(ctx: Context, local: TransactionInfo, response: SubscriptionResponse)
    returns (selected: Option<Selection>, tally: Tally)
    ensures Scan(selected, tally) == ScanAll(ctx, local, START, response.data)
  {
    selected, tally := None, START.tally;
    ghost var result := ScanAll(ctx, local, START, response.data);
    for groupIndex := 0 to |response.data|
      invariant ScanAll(ctx, local, Scan(selected, tally), response.data[groupIndex..]) == result
    {
      var group := response.data[groupIndex].lastTransactions;
      ghost var ended := ScanGroup(ctx, local, Scan(selected, tally), group);
      ScanAllStep(ctx, local, Scan(selected, tally), response.data, groupIndex);
      for transactionIndex := 0 to |group|
        invariant ScanGroup(ctx, local, Scan(selected, tally), group[transactionIndex..]) == ended
      {
        var candidate := group[transactionIndex];
        ScanGroupStep(ctx, local, Scan(selected, tally), group, transactionIndex);
        tally := tally.(candidates := tally.candidates + 1);
        if candidate.signedTransactionInfo == "" {
          continue;
        }
        tally := tally.(signed := tally.signed + 1);
        var verified := ctx.verifier.transaction(candidate.signedTransactionInfo);
        if verified.None? {
          tally := tally.(verifyFailures := tally.verifyFailures + 1);
          continue;
        }
        var tx := verified.value;
        if tx.originalTransactionID != local.originalTransactionID {
          tally := tally.(originalIDMismatches := tally.originalIDMismatches + 1);
          continue;
        }
        if tx.bundleID != ctx.bundleID {
          tally := tally.(bundleMismatches := tally.bundleMismatches + 1);
          continue;
        }
        if MapEnvironment(tx.environment) != ctx.expectedEnv {
          tally := tally.(environmentMismatches := tally.environmentMismatches + 1);
          continue;
        }
        if selected.None? || tx.signedDate > selected.value.transaction.signedDate {
          selected := Some(Selection(candidate, tx));
        }
      }
    }
  }

  /** The purchase as the store sees it. */
  datatype Reconciled = Reconciled(transaction: TransactionInfo, status: Status, autoRenew: bool)

  /** The answer reconciliation has to give for an API reply. */
  ghost function Outcome(ctx: Context, local: TransactionInfo, reply: ApiReply): Result<Reconciled, ApiError> {
    match reply
    case Failed(e) => Err(e)
    case Answered(response) =>
      if response.environment != "" && MapEnvironment(response.environment) != ctx.expectedEnv then Err(ApiEnvironment)
      else
        match Choice(ctx, local, Flatten(response.data))
        case None => Err(ApiMalformed)
        case Some(sel) =>
          var status := MapAppleAPIStatus(sel.candidate.status);
          if status.None? then Err(ApiMalformed)
          else if sel.candidate.signedRenewalInfo == "" then
            Ok(Reconciled(sel.transaction, status.value, status.value == Active || status.value == GracePeriod))
          else
            var renewal := ctx.verifier.renewalInfo(sel.candidate.signedRenewalInfo);
            if renewal.None? then Err(ApiMalformed)
            else Ok(Reconciled(sel.transaction, status.value, renewal.value.autoRenewStatus == 1))
  }

  method ReconcileApplePurchase(ctx: Context, local: TransactionInfo, reply: ApiReply)
    returns (r: Result<Reconciled, ApiError>)
    ensures r == Outcome(ctx, local, reply)
  {
    if reply.Failed? {
      return Err(reply.error);
    }
    var response := reply.response;
    if response.environment != "" && MapEnvironment(response.environment) != ctx.expectedEnv {
      return Err(ApiEnvironment);
    }
    var selected, _ := SelectCandidate(ctx, local, response);
    if selected.None? {
      return Err(ApiMalformed);
    }
    var mapped := MapAppleAPIStatus(selected.value.candidate.status);
    if mapped.None? {
      return Err(ApiMalformed);
    }
    var status := mapped.value;
    var autoRenew := status == Active || status == GracePeriod;
    if selected.value.candidate.signedRenewalInfo != "" {
      var renewal := ctx.verifier.renewalInfo(selected.value.candidate.signedRenewalInfo);
      if renewal.None? {
        return Err(ApiMalformed);
      }
      autoRenew := renewal.value.autoRenewStatus == 1;
    }
    return Ok(Reconciled(selected.value.transaction, status, autoRenew));
  }

  /** A successful reconciliation answers for the very purchase that was asked about: a signed,
      verified candidate of this service's bundle and environment, latest-signed and earliest among
      equals, with the transaction decoded from that candidate; the status is never cancelled. */
  lemma ReconciliationIsTrue(ctx: Context, local: TransactionInfo, reply: ApiReply)
    ensures Outcome(ctx, local, reply).Ok? ==>
              var r := Outcome(ctx, local, reply).value;
              && reply.Answered?
              && r.transaction.originalTransactionID == local.originalTransactionID
              && r.transaction.bundleID == ctx.bundleID
              && MapEnvironment(r.transaction.environment) == ctx.expectedEnv
              && r.status in {Active, GracePeriod, BillingRetry, Expired, Revoked}
              && exists i: nat :: IsEarliestLatest(ctx, local, Flatten(reply.response.data), i)
                    && ctx.verifier.transaction(Flatten(reply.response.data)[i].signedTransactionInfo)
                       == Some(r.transaction)
                    && MapAppleAPIStatus(Flatten(reply.response.data)[i].status) == Some(r.status)
    ensures reply.Answered? && Outcome(ctx, local, reply) != Err(ApiEnvironment) ==>
              ((forall c :: c in Flatten(reply.response.data) ==> Judge(ctx, local, c) != Accepted)
               ==> Outcome(ctx, local, reply) == Err(ApiMalformed))
  {
  }
}
