/** The subsystems the kernel drives, abstracted to scripted answers, and the
    plans that say which lifecycle calls a boot or a shutdown makes, in which
    order, and where a boot stops. */
module Lifecycle {
  import opened Lang
  import opened Results
  import Naming

  /** What a subsystem answers to configure, start and stop; its stop may
      throw instead of answering. */
  datatype Script = Script(configure: Result, start: Result, stop: Result, stopThrows: bool)

  /** A value of the map handed to configure. */
  datatype InitEntry =
    | NameServerEntry(server: Naming.NameServer?)
    | PropertiesEntry(properties: Obj?)

  /** The configuration map handed to every configure. */
  type InitMap = map<string, InitEntry>

  /** A subsystem (org.dsmk.api.Subsystem) whose lifecycle calls answer from a
      script. */
  class Subsystem {
    const script: Script

    constructor (script: Script)
      ensures this.script == script
    {
      this.script := script;
    }

    method Configure(config: InitMap) returns (r: Result)
      ensures r == script.configure
    {
      r := script.configure;
    }

    method Start() returns (r: Result)
      ensures r == script.start
    {
      r := script.start;
    }

    method Stop() returns (o: Outcome<Result>)
      ensures script.stopThrows ==> o == Raised(SubsystemFailure)
      ensures !script.stopThrows ==> o == Returned(script.stop)
    {
      if script.stopThrows {
        o := Raised(SubsystemFailure);
      } else {
        o := Returned(script.stop);
      }
    }
  }

  /** One lifecycle call the kernel makes on a subsystem. */
  datatype Call =
    | Configure(target: Subsystem, init: InitMap)
    | Start(target: Subsystem)
    | Stop(target: Subsystem)

  /** The Result a call answers, when it answers. */
  function Answer(c: Call): Result
  {
    match c
    case Configure(s, _) => s.script.configure
    case Start(s) => s.script.start
    case Stop(s) => s.script.stop
  }

  /** A call the boot sweep treats as a failure: its Result is NOT_OK. */
  predicate Fails(c: Call)
  {
    Answer(c).IsNotOK()
  }

  /** The index of the first failing call of a plan, or its length. */
  function FirstFailure(plan: seq<Call>): (k: nat)
    ensures k <= |plan|
  {
    if plan == [] then 0
    else if Fails(plan[0]) then 0
    else 1 + FirstFailure(plan[1..])
  }

  /** The calls before FirstFailure pass, and the call at it fails. */
  lemma {:induction false} FirstFailureIsFirst(plan: seq<Call>)
    ensures forall j :: 0 <= j < FirstFailure(plan) ==> !Fails(plan[j])
    ensures FirstFailure(plan) < |plan| ==> Fails(plan[FirstFailure(plan)])
  {
    if plan != [] && !Fails(plan[0]) {
      FirstFailureIsFirst(plan[1..]);
    }
  }

  /** The calls an abort-on-first-NOT_OK sweep makes: the plan up to and
      including its first failing call. */
  function Executed(plan: seq<Call>): seq<Call>
  {
    var k := FirstFailure(plan);
    if k < |plan| then plan[..k + 1] else plan
  }

  /** The executed calls are a prefix of the plan that ends at its first
      failing call, or the whole plan when no call fails. */
  lemma ExecutedIsPrefixToFirstFailure(plan: seq<Call>)
    ensures Executed(plan) <= plan
    ensures var done := Executed(plan);
      done == plan || (done != [] && Fails(done[|done| - 1]))
    ensures var done := Executed(plan);
      forall j :: 0 <= j < |done| - 1 ==> !Fails(done[j])
  {
    FirstFailureIsFirst(plan);
  }

  /** What such a sweep returns: the failing call's Result unchanged, or
      Result.OK when no call failed. */
  function SweepResult(plan: seq<Call>): Result
  {
    var k := FirstFailure(plan);
    if k < |plan| then Answer(plan[k]) else OkResult()
  }

  /** A sweep answers NOT_OK exactly when some call fails, and then with the
      last executed call's Result; otherwise it answers OK having run the
      whole plan. */
  lemma SweepResultMeaning(plan: seq<Call>)
    ensures var r := SweepResult(plan);
      r.IsNotOK() <==> exists j :: 0 <= j < |plan| && Fails(plan[j])
    ensures var r := SweepResult(plan);
      r.IsNotOK() ==> r == Answer(Executed(plan)[|Executed(plan)| - 1])
    ensures var r := SweepResult(plan);
      !r.IsNotOK() ==> r == OkResult() && Executed(plan) == plan
  {
    FirstFailureIsFirst(plan);
  }

  /** A sweep answers NOT_OK exactly when it stopped before the end of its plan. */
  lemma SweepNotOkIffStopped(plan: seq<Call>)
    ensures SweepResult(plan).IsNotOK() <==> FirstFailure(plan) < |plan|
  {
    FirstFailureIsFirst(plan);
  }

  /** Running q after p: a NOT_OK answer from p ends everything there;
      otherwise all of p ran and q's sweep follows. */
  lemma SweepThen(p: seq<Call>, q: seq<Call>)
    ensures SweepResult(p).IsNotOK() ==> Executed(p + q) == Executed(p) && SweepResult(p + q) == SweepResult(p)
    ensures !SweepResult(p).IsNotOK() ==>
              Executed(p) == p && Executed(p + q) == p + Executed(q) && SweepResult(p + q) == SweepResult(q)
  {
    SweepNotOkIffStopped(p);
    if FirstFailure(p) < |p| {
      SweepAppendFailing(p, q);
    } else {
      SweepAppendPassing(p, q);
    }
  }

  /** FirstFailure is determined by its contract. */
  lemma {:induction false} FirstFailureIs(plan: seq<Call>, k: nat)
    requires k <= |plan|
    requires forall j :: 0 <= j < k ==> !Fails(plan[j])
    requires k < |plan| ==> Fails(plan[k])
    ensures FirstFailure(plan) == k
  {
    if k > 0 {
      assert !Fails(plan[0]);
      FirstFailureIs(plan[1..], k - 1);
    }
  }

  /** A failure in p is the first failure of p + q. */
  lemma FirstFailureAppendFailing(p: seq<Call>, q: seq<Call>)
    requires FirstFailure(p) < |p|
    ensures FirstFailure(p + q) == FirstFailure(p)
  {
    var k := FirstFailure(p);
    FirstFailureIsFirst(p);
    assert forall j :: 0 <= j <= k ==> (p + q)[j] == p[j];
    FirstFailureIs(p + q, k);
  }

  /** When p passes, the first failure of p + q is the first failure of q,
      shifted past p. */
  lemma FirstFailureAppendPassing(p: seq<Call>, q: seq<Call>)
    requires FirstFailure(p) == |p|
    ensures FirstFailure(p + q) == |p| + FirstFailure(q)
  {
    var kq := FirstFailure(q);
    FirstFailureIsFirst(p);
    FirstFailureIsFirst(q);
    assert forall j :: 0 <= j < |p| ==> (p + q)[j] == p[j];
    assert forall j :: |p| <= j < |p| + |q| ==> (p + q)[j] == q[j - |p|];
    FirstFailureIs(p + q, |p| + kq);
  }

  /** A sweep that stops at call k has run plan[..k + 1] and answers plan[k]'s Result. */
  lemma SweepStoppedAt(plan: seq<Call>, k: nat)
    requires k < |plan| && FirstFailure(plan) == k
    ensures Executed(plan) == plan[..k + 1]
    ensures SweepResult(plan) == Answer(plan[k])
  {
  }

  /** A sweep that passes every call has run the whole plan and answers OK. */
  lemma SweepPassed(plan: seq<Call>)
    requires FirstFailure(plan) == |plan|
    ensures Executed(plan) == plan
    ensures SweepResult(plan) == OkResult()
  {
  }

  /** Slicing p + q inside p. */
  lemma PrefixOfAppend(p: seq<Call>, q: seq<Call>, n: nat)
    requires n <= |p|
    ensures (p + q)[..n] == p[..n]
  {
  }

  /** Slicing p + q past p. */
  lemma PrefixPastAppend(p: seq<Call>, q: seq<Call>, n: nat)
    requires n <= |q|
    ensures (p + q)[..|p| + n] == p + q[..n]
  {
  }

  /** A sweep over p + q that fails in p is the sweep over p. */
  lemma SweepAppendFailing(p: seq<Call>, q: seq<Call>)
    requires FirstFailure(p) < |p|
    ensures Executed(p + q) == Executed(p)
    ensures SweepResult(p + q) == SweepResult(p)
  {
    var k := FirstFailure(p);
    FirstFailureAppendFailing(p, q);
    SweepStoppedAt(p + q, k);
    SweepStoppedAt(p, k);
    PrefixOfAppend(p, q, k + 1);
    assert (p + q)[k] == p[k];
  }

  /** A sweep over p + q in which p passes runs all of p, then the sweep over
      q, and returns what the sweep over q returns. */
  lemma SweepAppendPassing(p: seq<Call>, q: seq<Call>)
    requires FirstFailure(p) == |p|
    ensures Executed(p + q) == p + Executed(q)
    ensures SweepResult(p + q) == SweepResult(q)
  {
    FirstFailureAppendPassing(p, q);
    var kq := FirstFailure(q);
    if kq < |q| {
      SweepStoppedAt(p + q, |p| + kq);
      SweepStoppedAt(q, kq);
      PrefixPastAppend(p, q, kq + 1);
      assert (p + q)[|p| + kq] == q[kq];
    } else {
      SweepPassed(p + q);
      SweepPassed(q);
    }
  }

  /** initializeSubsystems' calls: configure each subsystem, in list order,
      with the same map. */
  ghost function ConfigureCalls(group: seq<Subsystem>, init: InitMap): (calls: seq<Call>)
    ensures |calls| == |group|
    ensures forall i :: 0 <= i < |group| ==> calls[i] == Configure(group[i], init)
  {
    if group == [] then [] else [Configure(group[0], init)] + ConfigureCalls(group[1..], init)
  }

  /** startSubsystems' calls: start each subsystem, in list order. */
  ghost function StartCalls(group: seq<Subsystem>): (calls: seq<Call>)
    ensures |calls| == |group|
    ensures forall i :: 0 <= i < |group| ==> calls[i] == Start(group[i])
  {
    if group == [] then [] else [Start(group[0])] + StartCalls(group[1..])
  }

  /** stopSubsystems' calls: stop each subsystem, from the last to the first. */
  ghost function StopCalls(group: seq<Subsystem>): (calls: seq<Call>)
    ensures |calls| == |group|
    ensures forall i :: 0 <= i < |group| ==> calls[i] == Stop(group[|group| - 1 - i])
  {
    if group == [] then [] else StopCalls(group[1..]) + [Stop(group[0])]
  }

  /** initializeAndStartSubsystems' plan: configure the whole group, then start
      it. */
  ghost function GroupPlan(group: seq<Subsystem>, init: InitMap): seq<Call>
  {
    ConfigureCalls(group, init) + StartCalls(group)
  }

  /** Concatenation of calls is associative. */
  lemma AppendIsAssociative(a: seq<Call>, b: seq<Call>, c: seq<Call>)
    ensures a + b + c == a + (b + c)
  {
  }

  /** A group's sweep: a NOT_OK configure ends it before any start;
      otherwise every member was configured and the starts follow. */
  lemma GroupSweep(group: seq<Subsystem>, init: InitMap)
    ensures var configures := ConfigureCalls(group, init);
      SweepResult(configures).IsNotOK() ==>
        Executed(GroupPlan(group, init)) == Executed(configures)
        && SweepResult(GroupPlan(group, init)) == SweepResult(configures)
    ensures var configures := ConfigureCalls(group, init);
      !SweepResult(configures).IsNotOK() ==>
        Executed(configures) == configures
        && Executed(GroupPlan(group, init)) == configures + Executed(StartCalls(group))
        && SweepResult(GroupPlan(group, init)) == SweepResult(StartCalls(group))
  {
    SweepThen(ConfigureCalls(group, init), StartCalls(group));
  }

  /** The boot plan: the pre, ext and post groups in that order. */
  ghost function BootPlan(pre: seq<Subsystem>, ext: seq<Subsystem>, post: seq<Subsystem>, init: InitMap): seq<Call>
  {
    GroupPlan(pre, init) + GroupPlan(ext, init) + GroupPlan(post, init)
  }

  /** A sweep over three plans run back to back, part by part: a part
      answering NOT_OK ends the sweep there, and each later part runs only
      after all earlier ones ran whole. */
  lemma SweepOfThree(g1: seq<Call>, g2: seq<Call>, g3: seq<Call>)
    ensures SweepResult(g1).IsNotOK() ==>
      Executed(g1 + g2 + g3) == Executed(g1) && SweepResult(g1 + g2 + g3) == SweepResult(g1)
    ensures !SweepResult(g1).IsNotOK() && SweepResult(g2).IsNotOK() ==>
      Executed(g1) == g1 && Executed(g1 + g2 + g3) == g1 + Executed(g2)
      && SweepResult(g1 + g2 + g3) == SweepResult(g2)
    ensures !SweepResult(g1).IsNotOK() && !SweepResult(g2).IsNotOK() ==>
      Executed(g1) == g1 && Executed(g2) == g2
      && Executed(g1 + g2 + g3) == g1 + g2 + Executed(g3) && SweepResult(g1 + g2 + g3) == SweepResult(g3)
  {
    AppendIsAssociative(g1, g2, g3);
    SweepThen(g1, g2 + g3);
    SweepThen(g2, g3);
    AppendIsAssociative(g1, g2, Executed(g3));
  }

  /** The shutdown plan: post, ext and pre, each from its last subsystem to its
      first. */
  ghost function ShutdownPlan(pre: seq<Subsystem>, ext: seq<Subsystem>, post: seq<Subsystem>): seq<Call>
  {
    StopCalls(post) + StopCalls(ext) + StopCalls(pre)
  }

  /** Every configure of a boot receives the one map built for it. */
  lemma EveryConfigureGetsInitMap(pre: seq<Subsystem>, ext: seq<Subsystem>, post: seq<Subsystem>, init: InitMap)
    ensures forall c :: c in BootPlan(pre, ext, post, init) && c.Configure? ==> c.init == init
  {
    GroupConfiguresGetInitMap(pre, init);
    GroupConfiguresGetInitMap(ext, init);
    GroupConfiguresGetInitMap(post, init);
  }

  /** Every configure of a group's plan receives the map given to the group. */
  lemma GroupConfiguresGetInitMap(group: seq<Subsystem>, init: InitMap)
    ensures forall c :: c in GroupPlan(group, init) && c.Configure? ==> c.init == init
  {
    var cs, ss := ConfigureCalls(group, init), StartCalls(group);
    assert forall c :: c in cs ==> c.Configure? && c.init == init;
    assert forall c :: c in ss ==> c.Start?;
  }

  /** Within a group, a start is only made once every subsystem of the group
      has been configured, in list order, without a failure. */
  lemma StartOnlyAfterWholeGroupConfigured(group: seq<Subsystem>, init: InitMap, i: nat)
    requires i < |Executed(GroupPlan(group, init))|
    requires Executed(GroupPlan(group, init))[i].Start?
    ensures i >= |group|
    ensures Executed(GroupPlan(group, init))[..|group|] == ConfigureCalls(group, init)
    ensures forall j :: 0 <= j < |group| ==> !Fails(Configure(group[j], init))
  {
    var plan := GroupPlan(group, init);
    var done := Executed(plan);
    ExecutedIsPrefixToFirstFailure(plan);
    assert done[i] == plan[i];
    assert forall j :: 0 <= j < |group| ==> plan[j] == Configure(group[j], init);
    assert forall j :: 0 <= j < |group| ==> done[j] == plan[j];
    assert done[..|group|] == plan[..|group|];
    assert plan[..|group|] == ConfigureCalls(group, init);
  }

  /** A sweep over three plans reaches the second only when the whole first
      passed, and the third only when the first two passed. */
  lemma LaterPartsOnlyAfterEarlierPassed(p1: seq<Call>, p2: seq<Call>, p3: seq<Call>)
    ensures var done := Executed(p1 + p2 + p3);
      && (|done| > |p1| ==> FirstFailure(p1) == |p1| && done[..|p1|] == p1)
      && (|done| > |p1| + |p2| ==> FirstFailure(p1 + p2) == |p1| + |p2|)
  {
    var done := Executed(p1 + p2 + p3);
    AppendIsAssociative(p1, p2, p3);
    if FirstFailure(p1) < |p1| {
      SweepAppendFailing(p1, p2 + p3);
      SweepStoppedAt(p1, FirstFailure(p1));
    } else {
      SweepAppendPassing(p1, p2 + p3);
      assert done[..|p1|] == p1;
      if FirstFailure(p2) < |p2| {
        SweepAppendFailing(p2, p3);
        SweepStoppedAt(p2, FirstFailure(p2));
      } else {
        FirstFailureAppendPassing(p1, p2);
      }
    }
  }

  /** A later group is reached only when the earlier groups were configured
      and started without a failure. */
  lemma LaterGroupsOnlyAfterEarlierSucceeded(pre: seq<Subsystem>, ext: seq<Subsystem>, post: seq<Subsystem>, init: InitMap)
    ensures var done := Executed(BootPlan(pre, ext, post, init));
      && (|done| > |GroupPlan(pre, init)| ==>
            FirstFailure(GroupPlan(pre, init)) == |GroupPlan(pre, init)|
            && done[..|GroupPlan(pre, init)|] == GroupPlan(pre, init))
      && (|done| > |GroupPlan(pre, init)| + |GroupPlan(ext, init)| ==>
            FirstFailure(GroupPlan(pre, init) + GroupPlan(ext, init)) == |GroupPlan(pre, init)| + |GroupPlan(ext, init)|)
  {
    LaterPartsOnlyAfterEarlierPassed(GroupPlan(pre, init), GroupPlan(ext, init), GroupPlan(post, init));
  }

  /** A boot with pre = [A, B], ext = [C], post = [D] in which only B's
      configure answers NOT_OK makes exactly the calls A.configure,
      B.configure and returns B's Result: A is configured but never started. */
  lemma BootStopsAtFailingConfigure(a: Subsystem, b: Subsystem, c: Subsystem, d: Subsystem, init: InitMap)
    requires !a.script.configure.IsNotOK()
    requires b.script.configure.IsNotOK()
    ensures Executed(BootPlan([a, b], [c], [d], init)) == [Configure(a, init), Configure(b, init)]
    ensures SweepResult(BootPlan([a, b], [c], [d], init)) == b.script.configure
  {
    var plan := BootPlan([a, b], [c], [d], init);
    assert plan[0] == Configure(a, init) && plan[1] == Configure(b, init);
    FirstFailureIs(plan, 1);
    assert plan[..2] == [Configure(a, init), Configure(b, init)];
  }

  /** Shutting down pre = [A, B], ext = [C], post = [D] stops D, C, B and A in
      that order, each once, whatever their stops answer. */
  lemma ShutdownOrder(a: Subsystem, b: Subsystem, c: Subsystem, d: Subsystem)
    ensures ShutdownPlan([a, b], [c], [d]) == [Stop(d), Stop(c), Stop(b), Stop(a)]
  {
    assert StopCalls([a, b]) == [Stop(b), Stop(a)];
    assert StopCalls([c]) == [Stop(c)];
    assert StopCalls([d]) == [Stop(d)];
  }

  /** Every position of every group is stopped exactly once. */
  lemma ShutdownStopsEachOnce(pre: seq<Subsystem>, ext: seq<Subsystem>, post: seq<Subsystem>)
    ensures var plan := ShutdownPlan(pre, ext, post);
      && |plan| == |pre| + |ext| + |post|
      && (forall i :: 0 <= i < |post| ==> plan[i] == Stop(post[|post| - 1 - i]))
      && (forall i :: |post| <= i < |post| + |ext| ==> plan[i] == Stop(ext[|post| + |ext| - 1 - i]))
      && (forall i :: |post| + |ext| <= i < |plan| ==> plan[i] == Stop(pre[|plan| - 1 - i]))
  {
  }
}
