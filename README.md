# Auto-healing health check, modelled in Dafny

The auto-healing module of this infrastructure runs a scheduled function,
`exports.handler` in `infra/modules/auto_healing/lambda/health_check.js`.
On each invocation it does four things:

1. It asks the compute service for the status of a fixed list of instances.
2. It asks the load balancer for the health of a fixed target group.
3. It keeps the unhealthy entries of each answer. An instance is unhealthy when its
   instance status or its system status is anything but `ok`. A target is
   unhealthy when its state is anything but `healthy`.
4. If either list is non-empty, it publishes one alert to a fixed notification
   topic. The subject is `Health Check Alert` and the body holds both lists and
   a timestamp.

It then returns status 200 with body `Health check completed`. Any error
raised by the two queries or by the publish is logged and raised again.

The model has two modules:

- `Filters` (`filters.dfy`) is the order-preserving filter that the two
  `.filter` calls perform. `IsSubsequence` is an independent reference
  definition of "obtained by deleting elements without reordering". The lemmas
  cover membership, emptiness, order, length, multiplicities, concatenation,
  idempotence and the keeps-everything case.
- `HealthCheck` (`health_check.dfy`) holds four parts:
  - the status records and the two unhealthiness predicates;
  - the configuration and the alert payload;
  - `Run`, a pure function that specifies one invocation: which requests it
    issues, in order, and what it returns;
  - the class `Cloud` and the method `Handler`, which runs the same steps
    imperatively. Each cloud call appends its request to a ghost log
    `Cloud.calls`, and `Handler` is proved to extend that log by exactly
    `Run(...).calls` and to return `Run(...).result`.

  The lemmas about `Run` state what the source promises.

Each cloud service is represented by a function from request to answer, held
in a `Services` value. An answer is either a result or an `Error`. A
publish is either `Pass` or `Fail(error)`. The handler asks each service at
most once per invocation, so one function per service covers every run. The
configuration is a plain `Config` value. The timestamp is an opaque string
passed in as `now`. The scheduler's `event` argument is never read by the
source, so the model leaves it out.

## Model

| member | source | states |
|---|---|---|
| `Filters.Filter` | infra/modules/auto_healing/lambda/health_check.js:24-31 | the `.filter` calls: keeps the elements the callback accepts, in input order; what it keeps is stated by `FilterMembers`, `FilterEmptyIff`, `FilterIsSubsequence` and `FilterMultiplicity` |
| `Filters.FilterMembers` | infra/modules/auto_healing/lambda/health_check.js:24-31 | every kept element comes from the input and satisfies the callback, and every input element that satisfies it is kept |
| `Filters.FilterEmptyIff` | infra/modules/auto_healing/lambda/health_check.js:24-31 | the filtered list is empty if and only if no input element satisfies the callback |
| `Filters.FilterIsSubsequence` | infra/modules/auto_healing/lambda/health_check.js:24-31 | the filtered list is an order-preserving subsequence of its input |
| `Filters.FilterNoLonger` | infra/modules/auto_healing/lambda/health_check.js:24-31 | a filtered list is never longer than its input |
| `Filters.FilterMultiplicity` | infra/modules/auto_healing/lambda/health_check.js:24-31 | each kept value occurs in the result exactly as often as in the input, and each rejected value does not occur at all |
| `Filters.FilterConcat` | infra/modules/auto_healing/lambda/health_check.js:24-31 | filtering a concatenation is the concatenation of the filterings, so the order of the input is kept |
| `Filters.FilterIdempotent` | infra/modules/auto_healing/lambda/health_check.js:24-31 | filtering an unhealthy list again leaves it unchanged |
| `Filters.FilterKeepsAllIff` | infra/modules/auto_healing/lambda/health_check.js:24-31 | the filter returns its input unchanged if and only if every element satisfies the callback |
| `Filters.SubsequenceNoLonger` | infra/modules/auto_healing/lambda/health_check.js:24-31 | a subsequence is never longer than the sequence it is taken from |
| `HealthCheck.IsUnhealthyInstance` | infra/modules/auto_healing/lambda/health_check.js:25-26 | the instance callback: true when the instance status or the system status is not `ok`; its effect is stated by the `UnhealthyInstances` contract |
| `HealthCheck.UnhealthyInstances` | infra/modules/auto_healing/lambda/health_check.js:24-27 | a record is kept if and only if its instance status or its system status is not `ok`; the result is empty exactly when every record has both statuses `ok`; it is an order-preserving subsequence of the answer; each unhealthy record occurs as often as in the answer and no healthy record occurs |
| `HealthCheck.IsUnhealthyTarget` | infra/modules/auto_healing/lambda/health_check.js:30 | the target callback: true when the health state is not `healthy`; its effect is stated by the `UnhealthyTargets` contract |
| `HealthCheck.UnhealthyTargets` | infra/modules/auto_healing/lambda/health_check.js:29-31 | a target is kept if and only if its state is not `healthy`; the result is empty exactly when every target is `healthy`; it is an order-preserving subsequence of the answer; each unhealthy target occurs as often as in the answer and no healthy target occurs |
| `HealthCheck.Alert` | infra/modules/auto_healing/lambda/health_check.js:34-41 | builds the publish request: configured topic, fixed subject, both unhealthy lists and the timestamp; stated by `RunAlertContents` |
| `HealthCheck.Run` | infra/modules/auto_healing/lambda/health_check.js:12-52 | the specification of one invocation: the requests issued, in order, and the result; its behaviour is stated by the `Run*` lemmas below, and `Handler` is proved equal to it |
| `HealthCheck.Cloud.constructor` | infra/modules/auto_healing/lambda/health_check.js:4-6 | the three service clients are modelled as one `Cloud` object, and its construction stands for these lines: it answers with the given services and has issued no requests yet |
| `HealthCheck.Cloud.DescribeInstanceStatus` | infra/modules/auto_healing/lambda/health_check.js:14-16 | records one instance-status request with the given ids and returns the service's answer to it |
| `HealthCheck.Cloud.DescribeTargetHealth` | infra/modules/auto_healing/lambda/health_check.js:19-21 | records one target-health request for the given group and returns the service's answer to it |
| `HealthCheck.Cloud.Publish` | infra/modules/auto_healing/lambda/health_check.js:34-42 | records one publish request and returns the service's outcome for it |
| `HealthCheck.Handler` | infra/modules/auto_healing/lambda/health_check.js:12-52 | appends to the call log exactly the requests `Run` specifies, in order, and returns exactly `Run`'s result |
| `HealthCheck.RunQueriesConfigured` | infra/modules/auto_healing/lambda/health_check.js:8-21 | the first request is always the instance-status query with exactly the configured ids; the second, when issued, is the target-health query with exactly the configured group; at most a publish follows |
| `HealthCheck.RunPublishesIffUnhealthy` | infra/modules/auto_healing/lambda/health_check.js:33-43 | when both queries succeed, exactly one publish is issued if some instance or target is unhealthy, and none if all are healthy |
| `HealthCheck.RunAlertContents` | infra/modules/auto_healing/lambda/health_check.js:34-41 | every publish goes to the configured topic with subject `Health Check Alert` and carries exactly the two unhealthy lists and the timestamp |
| `HealthCheck.RunSuccessIsCompleted` | infra/modules/auto_healing/lambda/health_check.js:45-48 | a successful invocation returns status 200 with body `Health check completed` |
| `HealthCheck.RunInstanceQueryFailure` | infra/modules/auto_healing/lambda/health_check.js:14-16 | a failing instance-status query is re-raised unchanged, and no further request is issued, so nothing is published |
| `HealthCheck.RunTargetQueryFailure` | infra/modules/auto_healing/lambda/health_check.js:19-21 | after a successful instance query, a failing target-health query is re-raised unchanged; exactly the two queries were issued and nothing is published |
| `HealthCheck.RunPublishFailure` | infra/modules/auto_healing/lambda/health_check.js:34-42 | a failing publish of the alert is re-raised unchanged |
| `HealthCheck.RunFailsOnlyWithServiceError` | infra/modules/auto_healing/lambda/health_check.js:49-52 | no partial result: a failed invocation carries an error that one of the services actually raised for a request the invocation issued |
| `HealthCheck.RunDependsOnlyOnConfiguredRequests` | infra/modules/auto_healing/lambda/health_check.js:14-21 | two sets of services that answer the configured requests alike, and agree on every publish to the configured topic, give the same invocation |
| `HealthCheck.ExampleAllHealthy` | infra/modules/auto_healing/lambda/health_check.js:24-48 | with one healthy instance and one healthy target, the run issues only the two queries and completes |
| `HealthCheck.ExampleImpairedInstance` | infra/modules/auto_healing/lambda/health_check.js:24-48 | with one impaired instance and no targets, the run publishes one alert naming that instance and completes |

## Left out

- The real service calls are not modelled. The three clients built at lines 4-6 are modelled as one `Cloud` object whose answers come from a `Services` value. The source builds fresh clients on every invocation; `Handler` instead takes a `Cloud` built beforehand, and its contract speaks only of the calls it appends to that object's log.
- The service records are cut down to the fields the filters read: an instance keeps its id and its two status strings, a target keeps its id and its state. The source's alert body carries the whole records as the services returned them (instance state, events, availability zone, target port, health reason and description). The handler passes records through unchanged, so no decision depends on the dropped fields.
- Reading the environment (lines 8-10) is not modelled. The configuration is given as a `Config` value. Parsing the instance-id list at line 8 happens outside the `try`, and the model makes no claim about errors raised there.
- The JSON text layout of the alert body and the wall-clock timestamp (lines 37-41) are not modelled. The body is the structured `AlertMessage`, and the timestamp is the opaque parameter `now`.
- The `console.error` logging (line 50) and the asynchronous sequencing are not modelled. The calls happen one after another, in source order.
- A malformed record is not modelled. This covers an instance entry without a status summary or a target entry without a health field. In the source, reading such a field throws inside the `try`, and that error is re-raised. The model assumes every record carries its fields.
- Paging of the instance-status answer is not modelled. The source reads only the one answer it gets, and so does the model.
- Services that answer the same request differently over time are not modelled. Each service is asked at most once per invocation, so this loses nothing within one invocation.
- A failed publish is recorded in the call log as an attempted publish. The model does not distinguish a delivered message from an attempted one beyond the `Pass`/`Fail` outcome.
- `app/backend/index.js` and `app/frontend/src/App.js` are not part of this model. They are a one-route HTTP server and a fetch-and-render UI component, with no decision logic.
