/** The scheduled health check of the auto-healing module: query the status
    of the configured compute instances and the health of the configured
    load-balancer target group, keep the unhealthy entries, publish one alert
    to the configured notification topic when there is any, and report
    completion; any error from a query or from the publish is re-raised. */
module HealthCheck {
  import opened Filters

  // ---------------------------------------------------------------------
  // Errors and results

  /** An error raised by one of the cloud services; its contents are opaque. */
  datatype Error = Error(message: string)

  /** The outcome of a call that yields a value or raises an error. */
  datatype Result<+R> = Success(value: R) | Failure(error: Error) {
    predicate IsFailure() { Failure? }
    function PropagateFailure<U>(): Result<U> requires Failure? { Failure(error) }
    function Extract(): R requires Success? { value }
  }

  /** The outcome of a call that yields nothing or raises an error. */
  datatype Outcome = Pass | Fail(error: Error) {
    predicate IsFailure() { Fail? }
    function PropagateFailure<U>(): Result<U> requires Fail? { Failure(error) }
  }

  // ---------------------------------------------------------------------
  // Status records

  /** One entry of the instance-status answer: the instance and its two
      reported status summaries (instance reachability and system checks). */
  datatype InstanceStatus = InstanceStatus(instanceId: string, instanceStatus: string, systemStatus: string)

  /** One entry of the target-health answer: a registered target and its health state. */
  datatype TargetHealthDescription = TargetHealthDescription(targetId: string, state: string)

  const StatusOk := "ok"
  const StateHealthy := "healthy"

  /** An instance counts as unhealthy when either summary is anything other than "ok". */
  predicate IsUnhealthyInstance(s: InstanceStatus) {
    s.instanceStatus != StatusOk || s.systemStatus != StatusOk
  }

  /** A target counts as unhealthy when its state is anything other than "healthy". */
  predicate IsUnhealthyTarget(t: TargetHealthDescription) {
    t.state != StateHealthy
  }

  /** The unhealthy instances, in the order the service reported them. */
  function UnhealthyInstances(statuses: seq<InstanceStatus>): (r: seq<InstanceStatus>)
    ensures forall i :: 0 <= i < |r| ==> r[i] in statuses && (r[i].instanceStatus != "ok" || r[i].systemStatus != "ok")
    ensures forall i :: 0 <= i < |statuses| && (statuses[i].instanceStatus != "ok" || statuses[i].systemStatus != "ok") ==> statuses[i] in r
    ensures r == [] <==> forall i :: 0 <= i < |statuses| ==> statuses[i].instanceStatus == "ok" && statuses[i].systemStatus == "ok"
    ensures IsSubsequence(r, statuses)
    ensures forall x :: multiset(r)[x] == if x.instanceStatus != "ok" || x.systemStatus != "ok" then multiset(statuses)[x] else 0
  {
    FilterMembers(statuses, IsUnhealthyInstance);
    FilterEmptyIff(statuses, IsUnhealthyInstance);
    FilterIsSubsequence(statuses, IsUnhealthyInstance);
    var kept := Filter(statuses, IsUnhealthyInstance);
    assert forall x :: multiset(kept)[x] == if IsUnhealthyInstance(x) then multiset(statuses)[x] else 0 by {
      forall x { FilterMultiplicity(statuses, IsUnhealthyInstance, x); }
    }
    kept
  }

  /** The unhealthy targets, in the order the service reported them. */
  function UnhealthyTargets(targets: seq<TargetHealthDescription>): (r: seq<TargetHealthDescription>)
    ensures forall i :: 0 <= i < |r| ==> r[i] in targets && r[i].state != "healthy"
    ensures forall i :: 0 <= i < |targets| && targets[i].state != "healthy" ==> targets[i] in r
    ensures r == [] <==> forall i :: 0 <= i < |targets| ==> targets[i].state == "healthy"
    ensures IsSubsequence(r, targets)
    ensures forall x :: multiset(r)[x] == if x.state != "healthy" then multiset(targets)[x] else 0
  {
    FilterMembers(targets, IsUnhealthyTarget);
    FilterEmptyIff(targets, IsUnhealthyTarget);
    FilterIsSubsequence(targets, IsUnhealthyTarget);
    var kept := Filter(targets, IsUnhealthyTarget);
    assert forall x :: multiset(kept)[x] == if IsUnhealthyTarget(x) then multiset(targets)[x] else 0 by {
      forall x { FilterMultiplicity(targets, IsUnhealthyTarget, x); }
    }
    kept
  }

  // ---------------------------------------------------------------------
  // Configuration, alert and response

  /** The deployment's fixed configuration: the instances to check, the
      target group to check and the topic that receives alerts. */
  datatype Config = Config(instanceIds: seq<string>, targetGroupArn: string, snsTopicArn: string)

  /** The alert body: both unhealthy lists and the time the alert was built. */
  datatype AlertMessage = AlertMessage(
    unhealthyInstances: seq<InstanceStatus>,
    unhealthyTargets: seq<TargetHealthDescription>,
    timestamp: string)

  /** A request to publish one message to a topic. */
  datatype PublishInput = PublishInput(topicArn: string, subject: string, message: AlertMessage)

  /** What the handler returns to its trigger on success. */
  datatype Response = Response(statusCode: int, body: string)

  const AlertSubject := "Health Check Alert"
  const Completed := Response(200, "Health check completed")

  /** The alert sent for the given unhealthy lists. */
  function Alert(config: Config, unhealthyInstances: seq<InstanceStatus>,
                 unhealthyTargets: seq<TargetHealthDescription>, now: string): PublishInput
  {
    PublishInput(config.snsTopicArn, AlertSubject, AlertMessage(unhealthyInstances, unhealthyTargets, now))
  }

  // ---------------------------------------------------------------------
  // The cloud services, seen from the handler

  /** How each service answers a request. Each service is asked at most once
      per invocation, so one function per service covers every possible run. */
  datatype Services = Services(
    describeInstanceStatus: seq<string> -> Result<seq<InstanceStatus>>,
    describeTargetHealth: string -> Result<seq<TargetHealthDescription>>,
    publish: PublishInput -> Outcome)

  /** A request issued to a service. */
  datatype Call =
    | DescribeInstanceStatusCall(instanceIds: seq<string>)
    | DescribeTargetHealthCall(targetGroupArn: string)
    | PublishCall(input: PublishInput)

  predicate IsPublish(c: Call) { c.PublishCall? }

  /** The publish requests among the calls, in order. */
  function Publishes(calls: seq<Call>): seq<Call> {
    Filter(calls, IsPublish)
  }

  /** What one invocation does: the requests it issues and what it returns. */
  datatype Invocation = Invocation(calls: seq<Call>, result: Result<Response>)

  /** The specification of one invocation of the handler. */
  function Run(config: Config, services: Services, now: string): Invocation {
    var queryInstances := DescribeInstanceStatusCall(config.instanceIds);
    var queryTargets := DescribeTargetHealthCall(config.targetGroupArn);
    match services.describeInstanceStatus(config.instanceIds)
    case Failure(e) => Invocation([queryInstances], Failure(e))
    case Success(statuses) =>
      match services.describeTargetHealth(config.targetGroupArn)
      case Failure(e) => Invocation([queryInstances, queryTargets], Failure(e))
      case Success(targets) =>
        var unhealthyInstances := UnhealthyInstances(statuses);
        var unhealthyTargets := UnhealthyTargets(targets);
        if |unhealthyInstances| > 0 || |unhealthyTargets| > 0 then
          var alert := Alert(config, unhealthyInstances, unhealthyTargets, now);
          var result := match services.publish(alert)
            case Pass => Success(Completed)
            case Fail(e) => Failure(e);
          Invocation([queryInstances, queryTargets, PublishCall(alert)], result)
        else
          Invocation([queryInstances, queryTargets], Success(Completed))
  }

  /** The cloud as the handler sees it: the services' answers, and a record
      of every request issued to them. */
  class Cloud {
    const services: Services
    ghost var calls: seq<Call>

    constructor (services: Services)
      ensures this.services == services && calls == []
    {
      this.services := services;
      calls := [];
    }

    method DescribeInstanceStatus(instanceIds: seq<string>) returns (r: Result<seq<InstanceStatus>>)
      modifies this
      ensures calls == old(calls) + [DescribeInstanceStatusCall(instanceIds)]
      ensures r == services.describeInstanceStatus(instanceIds)
    {
      calls := calls + [DescribeInstanceStatusCall(instanceIds)];
      r := services.describeInstanceStatus(instanceIds);
    }

    method DescribeTargetHealth(targetGroupArn: string) returns (r: Result<seq<TargetHealthDescription>>)
      modifies this
      ensures calls == old(calls) + [DescribeTargetHealthCall(targetGroupArn)]
      ensures r == services.describeTargetHealth(targetGroupArn)
    {
      calls := calls + [DescribeTargetHealthCall(targetGroupArn)];
      r := services.describeTargetHealth(targetGroupArn);
    }

    method Publish(input: PublishInput) returns (r: Outcome)
      modifies this
      ensures calls == old(calls) + [PublishCall(input)]
      ensures r == services.publish(input)
    {
      calls := calls + [PublishCall(input)];
      r := services.publish(input);
    }
  }

  /** The handler: two queries, the two filters, at most one publish, then
      the fixed completion response; the first error raised is re-raised. */
  method Handler(cloud: Cloud, config: Config, now: string) returns (r: Result<Response>)
    modifies cloud
    ensures cloud.calls == old(cloud.calls) + Run(config, cloud.services, now).calls
    ensures r == Run(config, cloud.services, now).result
  {
    var statuses :- cloud.DescribeInstanceStatus(config.instanceIds);
    var targets :- cloud.DescribeTargetHealth(config.targetGroupArn);
    var unhealthyInstances := UnhealthyInstances(statuses);
    var unhealthyTargets := UnhealthyTargets(targets);
    if |unhealthyInstances| > 0 || |unhealthyTargets| > 0 {
      :- cloud.Publish(Alert(config, unhealthyInstances, unhealthyTargets, now));
    }
    return Success(Completed);
  }

  // ---------------------------------------------------------------------
  // Properties of an invocation

  /** Both queries succeed and report these records. */
  predicate QueriesAnswer(config: Config, services: Services,
                          statuses: seq<InstanceStatus>, targets: seq<TargetHealthDescription>)
  {
    && services.describeInstanceStatus(config.instanceIds) == Success(statuses)
    && services.describeTargetHealth(config.targetGroupArn) == Success(targets)
  }

  /** The instance query is always issued first, with exactly the configured
      instances; the target query, when issued, comes second, with exactly
      the configured target group; nothing else is asked of either service. */
  lemma RunQueriesConfigured(config: Config, services: Services, now: string)
    ensures var calls := Run(config, services, now).calls;
      && 1 <= |calls| <= 3
      && calls[0] == DescribeInstanceStatusCall(config.instanceIds)
      && (|calls| >= 2 ==> calls[1] == DescribeTargetHealthCall(config.targetGroupArn))
      && (|calls| == 3 ==> calls[2].PublishCall?)
  {
  }

  /** When both queries succeed, exactly one alert is published if any
      instance or target is unhealthy, and none otherwise. */
  lemma {:induction false} RunPublishesIffUnhealthy(config: Config, services: Services, now: string,
                                                    statuses: seq<InstanceStatus>, targets: seq<TargetHealthDescription>)
    requires QueriesAnswer(config, services, statuses, targets)
    ensures var publishes := Publishes(Run(config, services, now).calls);
      && (|publishes| == 1 <==>
            (exists i :: 0 <= i < |statuses| && IsUnhealthyInstance(statuses[i]))
            || (exists j :: 0 <= j < |targets| && IsUnhealthyTarget(targets[j])))
      && |publishes| <= 1
  {
    var calls := Run(config, services, now).calls;
    var queries := [DescribeInstanceStatusCall(config.instanceIds), DescribeTargetHealthCall(config.targetGroupArn)];
    FilterEmptyIff(queries, IsPublish);
    if |calls| == 3 {
      assert calls == queries + [calls[2]];
      FilterConcat(queries, [calls[2]], IsPublish);
      assert Filter([calls[2]], IsPublish) == [calls[2]] by {
        assert [calls[2]][1..] == [];
      }
    } else {
      assert calls == queries;
    }
  }

  /** The alert, when one is published, goes to the configured topic with the
      fixed subject and carries exactly the two unhealthy lists and the timestamp. */
  lemma RunAlertContents(config: Config, services: Services, now: string,
                         statuses: seq<InstanceStatus>, targets: seq<TargetHealthDescription>)
    requires QueriesAnswer(config, services, statuses, targets)
    ensures forall c :: c in Run(config, services, now).calls && c.PublishCall? ==>
      && c.input.topicArn == config.snsTopicArn
      && c.input.subject == "Health Check Alert"
      && c.input.message.unhealthyInstances == UnhealthyInstances(statuses)
      && c.input.message.unhealthyTargets == UnhealthyTargets(targets)
      && c.input.message.timestamp == now
  {
  }

  /** An invocation that succeeds always returns status 200 with the fixed
      completion text, whether or not an alert was sent. */
  lemma RunSuccessIsCompleted(config: Config, services: Services, now: string)
    ensures Run(config, services, now).result.Success? ==>
      Run(config, services, now).result.value == Response(200, "Health check completed")
  {
  }

  /** A failing instance query is re-raised unchanged; nothing further is asked. */
  lemma RunInstanceQueryFailure(config: Config, services: Services, now: string, e: Error)
    requires services.describeInstanceStatus(config.instanceIds) == Failure(e)
    ensures Run(config, services, now) == Invocation([DescribeInstanceStatusCall(config.instanceIds)], Failure(e))
  {
  }

  /** A failing target query is re-raised unchanged, and nothing is published. */
  lemma RunTargetQueryFailure(config: Config, services: Services, now: string, e: Error)
    requires services.describeInstanceStatus(config.instanceIds).Success?
    requires services.describeTargetHealth(config.targetGroupArn) == Failure(e)
    ensures Run(config, services, now) ==
      Invocation([DescribeInstanceStatusCall(config.instanceIds), DescribeTargetHealthCall(config.targetGroupArn)], Failure(e))
  {
  }

  /** A failing publish is re-raised unchanged. */
  lemma RunPublishFailure(config: Config, services: Services, now: string,
                          statuses: seq<InstanceStatus>, targets: seq<TargetHealthDescription>, e: Error)
    requires QueriesAnswer(config, services, statuses, targets)
    requires |UnhealthyInstances(statuses)| > 0 || |UnhealthyTargets(targets)| > 0
    requires services.publish(Alert(config, UnhealthyInstances(statuses), UnhealthyTargets(targets), now)) == Fail(e)
    ensures Run(config, services, now).result == Failure(e)
  {
  }

  /** No partial result: an invocation either completes with the fixed
      response or fails with an error raised by one of the services it asked. */
  lemma RunFailsOnlyWithServiceError(config: Config, services: Services, now: string)
    ensures var inv := Run(config, services, now);
      inv.result.Failure? ==>
        || (&& DescribeInstanceStatusCall(config.instanceIds) in inv.calls
            && services.describeInstanceStatus(config.instanceIds) == Failure(inv.result.error))
        || (&& DescribeTargetHealthCall(config.targetGroupArn) in inv.calls
            && services.describeTargetHealth(config.targetGroupArn) == Failure(inv.result.error))
        || exists c :: c in inv.calls && c.PublishCall? && services.publish(c.input) == Fail(inv.result.error)
  {
    var inv := Run(config, services, now);
    assert inv.calls[0] in inv.calls;
    if |inv.calls| >= 2 {
      assert inv.calls[1] in inv.calls;
    }
    if inv.result.Failure? && |inv.calls| == 3 {
      assert inv.calls[2] in inv.calls;
    }
  }

  /** The invocation depends on the services only through the configured
      requests: services that agree on those answers behave identically. */
  lemma RunDependsOnlyOnConfiguredRequests(config: Config, s1: Services, s2: Services, now: string)
    requires s1.describeInstanceStatus(config.instanceIds) == s2.describeInstanceStatus(config.instanceIds)
    requires s1.describeTargetHealth(config.targetGroupArn) == s2.describeTargetHealth(config.targetGroupArn)
    requires forall p: PublishInput :: p.topicArn == config.snsTopicArn ==> s1.publish(p) == s2.publish(p)
    ensures Run(config, s1, now) == Run(config, s2, now)
  {
  }

  // ---------------------------------------------------------------------
  // Example invocations

  /** All instances and targets healthy: nothing is published and the run completes. */
  lemma {:induction false} ExampleAllHealthy()
    ensures var config := Config(["i-1"], "tg", "topic");
      var services := Services(
        ids => Success([InstanceStatus("i-1", "ok", "ok")]),
        arn => Success([TargetHealthDescription("t-1", "healthy")]),
        p => Pass);
      Run(config, services, "now") ==
        Invocation([DescribeInstanceStatusCall(["i-1"]), DescribeTargetHealthCall("tg")], Success(Completed))
  {
    var s := [InstanceStatus("i-1", "ok", "ok")];
    assert UnhealthyInstances(s) == [] by { assert s[1..] == []; }
    var t := [TargetHealthDescription("t-1", "healthy")];
    assert UnhealthyTargets(t) == [] by { assert t[1..] == []; }
  }

  /** One impaired instance and no targets: one alert naming that instance is
      published and the run completes. */
  lemma {:induction false} ExampleImpairedInstance()
    ensures var config := Config(["i-2"], "tg", "topic");
      var bad := InstanceStatus("i-2", "impaired", "ok");
      var services := Services(ids => Success([bad]), arn => Success([]), p => Pass);
      Run(config, services, "now") ==
        Invocation([DescribeInstanceStatusCall(["i-2"]), DescribeTargetHealthCall("tg"),
                    PublishCall(PublishInput("topic", "Health Check Alert", AlertMessage([bad], [], "now")))],
                   Success(Response(200, "Health check completed")))
  {
    var s := [InstanceStatus("i-2", "impaired", "ok")];
    assert UnhealthyInstances(s) == s by { assert s[1..] == []; }
  }
}
