/** The collector of per-site outcomes, and its failure summary by operation and
    error category. */
module OutcomeCollectors {
  import opened Sums
  import opened Failures
  import SharePoint = PipelineModel
  import OneDrive = OneDriveModel

  function CountIn(m: map<string, nat>, key: string): nat {
    if key in m then m[key] else 0
  }

  /** What a failed operation adds under a key. */
  function Hit(key: string, operation: string, failure: Option<Failure>): nat {
    if failure.Some? && key == operation + failure.value.category then 1 else 0
  }

  function At(key: string, fixed: string, n: nat): nat {
    if key == fixed then n else 0
  }

  /** What one outcome adds to the summary under a key. */
  function SharePointAdds(key: string): SharePoint.Outcome -> nat {
    (o: SharePoint.Outcome) =>
      Hit(key, "users/", o.user.failure) + Hit(key, "groups/", o.group.failure)
      + At(key, "members/error", o.group.memberErrors) + At(key, "members/timeout", o.group.memberTimeouts)
  }

  function OneDriveAdds(key: string): OneDrive.Outcome -> nat {
    (o: OneDrive.Outcome) =>
      Hit(key, "users/", o.findings.usersFailure) + Hit(key, "profile/", o.findings.profileFailure)
  }

  /** The number of failures of each operation and category among the outcomes. */
  function FailureCount(sp: seq<SharePoint.Outcome>, od: seq<OneDrive.Outcome>, key: string): nat {
    Sum(sp, SharePointAdds(key)) + Sum(od, OneDriveAdds(key))
  }

  /** The outcomes whose failure of an operation has a category. */
  function SharePointFailures(sp: seq<SharePoint.Outcome>, category: string, ofUsers: bool): nat {
    if sp == [] then 0
    else
      var failure := if ofUsers then sp[0].user.failure else sp[0].group.failure;
      (if failure.Some? && failure.value.category == category then 1 else 0) + SharePointFailures(sp[1..], category, ofUsers)
  }

  function OneDriveFailures(od: seq<OneDrive.Outcome>, category: string, ofUsers: bool): nat {
    if od == [] then 0
    else
      var failure := if ofUsers then od[0].findings.usersFailure else od[0].findings.profileFailure;
      (if failure.Some? && failure.value.category == category then 1 else 0) + OneDriveFailures(od[1..], category, ofUsers)
  }

  function MemberFailures(sp: seq<SharePoint.Outcome>, timeouts: bool): nat {
    if sp == [] then 0
    else (if timeouts then sp[0].group.memberTimeouts else sp[0].group.memberErrors) + MemberFailures(sp[1..], timeouts)
  }

  lemma HitExactly(key: string, operation: string, failure: Option<Failure>, prefix: string, category: string)
    requires key == prefix + category && |operation| > 0 && |prefix| > 0
    requires operation == prefix || operation[0] != prefix[0]
    ensures Hit(key, operation, failure)
         == if operation == prefix && failure.Some? && failure.value.category == category then 1 else 0
  {
    if failure.Some? && key == operation + failure.value.category {
      assert key[0] == operation[0] && key[0] == prefix[0];
      assert key[|prefix|..] == category && (operation + failure.value.category)[|operation|..] == failure.value.category;
    }
  }

  lemma {:induction false} UserFailuresCounted(sp: seq<SharePoint.Outcome>, category: string)
    ensures Sum(sp, SharePointAdds("users/" + category)) == SharePointFailures(sp, category, true)
  {
    if sp != [] {
      var key := "users/" + category;
      UserFailuresCounted(sp[1..], category);
      HitExactly(key, "users/", sp[0].user.failure, "users/", category);
      HitExactly(key, "groups/", sp[0].group.failure, "users/", category);
      assert key[0] == 'u' && "members/error"[0] == 'm' && "members/timeout"[0] == 'm';
    }
  }

  lemma {:induction false} GroupFailuresCounted(sp: seq<SharePoint.Outcome>, category: string)
    ensures Sum(sp, SharePointAdds("groups/" + category)) == SharePointFailures(sp, category, false)
  {
    if sp != [] {
      var key := "groups/" + category;
      GroupFailuresCounted(sp[1..], category);
      HitExactly(key, "users/", sp[0].user.failure, "groups/", category);
      HitExactly(key, "groups/", sp[0].group.failure, "groups/", category);
      assert key[0] == 'g' && "members/error"[0] == 'm' && "members/timeout"[0] == 'm';
    }
  }

  lemma NoHit(key: string, operation: string, failure: Option<Failure>)
    requires key != "" && operation != "" && key[0] != operation[0]
    ensures Hit(key, operation, failure) == 0
  {
    if failure.Some? {
      assert (operation + failure.value.category)[0] == operation[0];
    }
  }

  lemma {:induction false} MemberFailuresCounted(sp: seq<SharePoint.Outcome>)
    ensures Sum(sp, SharePointAdds("members/error")) == MemberFailures(sp, false)
    ensures Sum(sp, SharePointAdds("members/timeout")) == MemberFailures(sp, true)
  {
    if sp != [] {
      MemberFailuresCounted(sp[1..]);
      NoHit("members/error", "users/", sp[0].user.failure);
      NoHit("members/error", "groups/", sp[0].group.failure);
      NoHit("members/timeout", "users/", sp[0].user.failure);
      NoHit("members/timeout", "groups/", sp[0].group.failure);
      assert |"members/error"| != |"members/timeout"|;
    }
  }

  lemma {:induction false} OneDriveFailuresCounted(od: seq<OneDrive.Outcome>, category: string)
    ensures Sum(od, OneDriveAdds("users/" + category)) == OneDriveFailures(od, category, true)
    ensures Sum(od, OneDriveAdds("profile/" + category)) == OneDriveFailures(od, category, false)
    ensures Sum(od, OneDriveAdds("groups/" + category)) == 0
  {
    if od != [] {
      var f := od[0].findings;
      OneDriveFailuresCounted(od[1..], category);
      HitExactly("users/" + category, "users/", f.usersFailure, "users/", category);
      HitExactly("users/" + category, "profile/", f.profileFailure, "users/", category);
      HitExactly("profile/" + category, "users/", f.usersFailure, "profile/", category);
      HitExactly("profile/" + category, "profile/", f.profileFailure, "profile/", category);
      HitExactly("groups/" + category, "users/", f.usersFailure, "groups/", category);
      HitExactly("groups/" + category, "profile/", f.profileFailure, "groups/", category);
    }
  }

  lemma {:induction false} NoOtherFailures(sp: seq<SharePoint.Outcome>, od: seq<OneDrive.Outcome>, category: string)
    ensures Sum(sp, SharePointAdds("profile/" + category)) == 0
    ensures Sum(od, OneDriveAdds("members/error")) == 0 && Sum(od, OneDriveAdds("members/timeout")) == 0
    decreases |sp| + |od|
  {
    if sp != [] {
      var key := "profile/" + category;
      NoOtherFailures(sp[1..], od, category);
      NoHit(key, "users/", sp[0].user.failure);
      NoHit(key, "groups/", sp[0].group.failure);
      assert key[0] == 'p' && "members/error"[0] == 'm' && "members/timeout"[0] == 'm';
    } else if od != [] {
      NoOtherFailures([], od[1..], category);
      NoHit("members/error", "users/", od[0].findings.usersFailure);
      NoHit("members/error", "profile/", od[0].findings.profileFailure);
      NoHit("members/timeout", "users/", od[0].findings.usersFailure);
      NoHit("members/timeout", "profile/", od[0].findings.profileFailure);
    }
  }

  /** The failures of one category, by operation. */
  predicate CategoryFits(m: map<string, nat>, sp: seq<SharePoint.Outcome>, od: seq<OneDrive.Outcome>, category: string) {
    && CountIn(m, "users/" + category) == SharePointFailures(sp, category, true) + OneDriveFailures(od, category, true)
    && CountIn(m, "groups/" + category) == SharePointFailures(sp, category, false)
    && CountIn(m, "profile/" + category) == OneDriveFailures(od, category, false)
  }

  /** The summary by operation: failures of each category, and member failures by their
      amounts. */
  ghost predicate SummarisesByOperation(m: map<string, nat>, sp: seq<SharePoint.Outcome>, od: seq<OneDrive.Outcome>) {
    && (forall category: string :: CategoryFits(m, sp, od, category))
    && CountIn(m, "members/error") == MemberFailures(sp, false)
    && CountIn(m, "members/timeout") == MemberFailures(sp, true)
  }

  lemma CategoryIsCounted(m: map<string, nat>, sp: seq<SharePoint.Outcome>, od: seq<OneDrive.Outcome>, category: string)
    requires Summarises(m, sp, od)
    ensures CategoryFits(m, sp, od, category)
  {
    UserFailuresCounted(sp, category);
    GroupFailuresCounted(sp, category);
    OneDriveFailuresCounted(od, category);
    NoOtherFailures(sp, od, category);
    assert CountIn(m, "users/" + category) == FailureCount(sp, od, "users/" + category);
    assert CountIn(m, "groups/" + category) == FailureCount(sp, od, "groups/" + category);
    assert CountIn(m, "profile/" + category) == FailureCount(sp, od, "profile/" + category);
  }

  lemma MembersAreCounted(m: map<string, nat>, sp: seq<SharePoint.Outcome>, od: seq<OneDrive.Outcome>)
    requires Summarises(m, sp, od)
    ensures CountIn(m, "members/error") == MemberFailures(sp, false)
    ensures CountIn(m, "members/timeout") == MemberFailures(sp, true)
  {
    MemberFailuresCounted(sp);
    NoOtherFailures(sp, od, "");
  }

  lemma SummaryByOperation(m: map<string, nat>, sp: seq<SharePoint.Outcome>, od: seq<OneDrive.Outcome>)
    requires Summarises(m, sp, od)
    ensures SummarisesByOperation(m, sp, od)
  {
    forall category: string ensures CategoryFits(m, sp, od, category) {
      CategoryIsCounted(m, sp, od, category);
    }
    MembersAreCounted(m, sp, od);
  }

  predicate AllPositive(m: map<string, nat>) {
    forall key :: key in m ==> m[key] > 0
  }

  ghost predicate Summarises(m: map<string, nat>, sp: seq<SharePoint.Outcome>, od: seq<OneDrive.Outcome>) {
    (forall key :: CountIn(m, key) == FailureCount(sp, od, key)) && AllPositive(m)
  }

  /** There is one summary, whatever the order in which the sites finished. */
  lemma SummaryIgnoresOrder(m: map<string, nat>, sp: seq<SharePoint.Outcome>, od: seq<OneDrive.Outcome>,
                            m': map<string, nat>, sp': seq<SharePoint.Outcome>, od': seq<OneDrive.Outcome>)
    requires Summarises(m, sp, od) && Summarises(m', sp', od')
    requires multiset(sp) == multiset(sp') && multiset(od) == multiset(od')
    ensures m == m'
  {
    forall key ensures CountIn(m, key) == CountIn(m', key) {
      SumOfPermutation(sp, sp', SharePointAdds(key));
      SumOfPermutation(od, od', OneDriveAdds(key));
    }
    forall key ensures key in m <==> key in m' {
      assert CountIn(m, key) == CountIn(m', key);
    }
    forall key | key in m ensures m[key] == m'[key] {
      assert CountIn(m, key) == CountIn(m', key);
    }
  }

  class OutcomeCollector {
    var spOutcomes: seq<SharePoint.Outcome>
    var odOutcomes: seq<OneDrive.Outcome>

    constructor ()
      ensures spOutcomes == [] && odOutcomes == []
    {
      spOutcomes, odOutcomes := [], [];
    }

    method RecordSPOutcome(outcome: SharePoint.Outcome)
      modifies this`spOutcomes
      ensures spOutcomes == old(spOutcomes) + [outcome]
    {
      spOutcomes := spOutcomes + [outcome];
    }

    method RecordODOutcome(outcome: OneDrive.Outcome)
      modifies this`odOutcomes
      ensures odOutcomes == old(odOutcomes) + [outcome]
    {
      odOutcomes := odOutcomes + [outcome];
    }

    /** The caller gets an array of its own: changing it leaves the collector's
        outcomes alone. */
    method SPOutcomes(filler: SharePoint.Outcome) returns (result: array<SharePoint.Outcome>)
      ensures fresh(result) && result[..] == spOutcomes
    {
      result := new SharePoint.Outcome[|spOutcomes|](_ => filler);
      for i := 0 to |spOutcomes|
        invariant result[..i] == spOutcomes[..i]
      {
        result[i] := spOutcomes[i];
      }
    }

    method ODOutcomes(filler: OneDrive.Outcome) returns (result: array<OneDrive.Outcome>)
      ensures fresh(result) && result[..] == odOutcomes
    {
      result := new OneDrive.Outcome[|odOutcomes|](_ => filler);
      for i := 0 to |odOutcomes|
        invariant result[..i] == odOutcomes[..i]
      {
        result[i] := odOutcomes[i];
      }
    }

    method AddFailure(m: map<string, nat>, operation: string, failure: Option<Failure>) returns (summary: map<string, nat>)
      requires AllPositive(m)
      ensures AllPositive(summary)
      ensures forall key :: CountIn(summary, key) == CountIn(m, key) + Hit(key, operation, failure)
    {
      summary := m;
      if failure != None {
        var key := operation + failure.value.category;
        summary := summary[key := (if key in summary then summary[key] else 0) + 1];
      }
    }

    method AddCount(m: map<string, nat>, key: string, n: nat) returns (summary: map<string, nat>)
      requires AllPositive(m)
      ensures AllPositive(summary)
      ensures forall k :: CountIn(summary, k) == CountIn(m, k) + At(k, key, n)
    {
      summary := m;
      if n > 0 {
        summary := summary[key := (if key in summary then summary[key] else 0) + n];
      }
    }

    /** Counts every failure on record under its operation and category, and has no
        key without a failure. */
    method FailureSummary() returns (summary: map<string, nat>)
      ensures Summarises(summary, spOutcomes, odOutcomes)
      ensures SummarisesByOperation(summary, spOutcomes, odOutcomes)
    {
      summary := map[];
      for i := 0 to |spOutcomes|
        invariant Summarises(summary, spOutcomes[..i], [])
      {
        ghost var before := summary;
        var o := spOutcomes[i];
        summary := AddFailure(summary, "users/", o.user.failure);
        summary := AddFailure(summary, "groups/", o.group.failure);
        summary := AddCount(summary, "members/error", o.group.memberErrors);
        summary := AddCount(summary, "members/timeout", o.group.memberTimeouts);
        SharePointSnoc(before, spOutcomes[..i], spOutcomes[i], summary);
        assert spOutcomes[..i + 1] == spOutcomes[..i] + [spOutcomes[i]];
      }
      assert spOutcomes[..|spOutcomes|] == spOutcomes;
      for i := 0 to |odOutcomes|
        invariant Summarises(summary, spOutcomes, odOutcomes[..i])
      {
        ghost var before := summary;
        var o := odOutcomes[i];
        summary := AddFailure(summary, "users/", o.findings.usersFailure);
        summary := AddFailure(summary, "profile/", o.findings.profileFailure);
        OneDriveSnoc(before, spOutcomes, odOutcomes[..i], odOutcomes[i], summary);
        assert odOutcomes[..i + 1] == odOutcomes[..i] + [odOutcomes[i]];
      }
      assert odOutcomes[..|odOutcomes|] == odOutcomes;
      SummaryByOperation(summary, spOutcomes, odOutcomes);
    }
  }

  lemma SharePointSnoc(before: map<string, nat>, sp: seq<SharePoint.Outcome>, o: SharePoint.Outcome, after: map<string, nat>)
    requires Summarises(before, sp, [])
    requires forall key :: CountIn(after, key) == CountIn(before, key) + SharePointAdds(key)(o)
    requires AllPositive(after)
    ensures Summarises(after, sp + [o], [])
  {
    forall key ensures CountIn(after, key) == FailureCount(sp + [o], [], key) {
      SumSnoc(sp, o, SharePointAdds(key));
    }
  }

  lemma OneDriveSnoc(before: map<string, nat>, sp: seq<SharePoint.Outcome>, od: seq<OneDrive.Outcome>, o: OneDrive.Outcome,
                     after: map<string, nat>)
    requires Summarises(before, sp, od)
    requires forall key :: CountIn(after, key) == CountIn(before, key) + OneDriveAdds(key)(o)
    requires AllPositive(after)
    ensures Summarises(after, sp, od + [o])
  {
    forall key ensures CountIn(after, key) == FailureCount(sp, od + [o], key) {
      SumSnoc(od, o, OneDriveAdds(key));
    }
  }
}
