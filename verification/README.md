# osde2e configuration log metrics and the OCM resource builder, in Dafny

This project models two small pieces of the osde2e end-to-end test harness.

- **Log metrics** (`log_metrics.dfy`, module `LogMetrics`). A log metric is a name, a
  regular expression and two exclusive thresholds. The harness looks a metric up by
  name in an ordered collection, counts the expression's matches in a build log, and
  calls the metric passing when the count lies strictly between the thresholds.
- **The generated `ResourceBuilder`** of the OCM accounts-management SDK
  (`resource_builder.dfy`, module `Resources`). It is a record of six fields
  (`id`, `href`, `link`, `allowed`, `resourceName`, `resourceType`). It has a setter
  per field, `Copy` from an existing object, and `Build`.
- `wrappers.dfy` (module `Wrappers`) holds `Option`, which stands for a Go pointer
  (None is nil), and `Result`, which stands for Go's `(value, error)` pair.

Go methods on a receiver are functions whose first parameter is the receiver.
Builder setters return the updated builder value. `Copy` and `Build` copy the
pointers themselves, so after them a builder and an object share the values
pointed to. No code writes through those pointers: each setter replaces its
pointer with a fresh `&value`. A shared value therefore never changes, and value
semantics describe the builder and the object faithfully.

Two behaviours of the code are worth noting:

- A lookup of an unknown name returns the Go zero literal `LogMetric{}`
  (`pkg/common/config/config.go:68`). Its thresholds are 0 and 0, not the tag
  defaults 9999 and -1, so it passes no value (`ZeroMetricFailsEverything`,
  `AbsentNameNeverPasses`).
- A pattern that matches the empty string finds one match in an empty log, so the
  model claims no count for an empty log. It bounds the count by one more than
  the log's length.

## Model

| member | source | states |
|---|---|---|
| LogMetrics.WithTagDefaults | pkg/common/config/config.go:73-82 | a metric with the tag-default thresholds keeps its name and pattern, and its low threshold (-1) lies below its high threshold (9999) |
| LogMetrics.FindFrom | pkg/common/config/config.go:62-66 | the lookup loop from position k: a result is a position at or after k holding the name, with no earlier position from k holding it; None exactly when no position from k holds the name |
| LogMetrics.GetMetricByName | pkg/common/config/config.go:61-69 | the lookup returns the metric at the first position carrying the name; when no metric carries it, the zero metric (empty name and pattern, thresholds 0 and 0); it never fails |
| LogMetrics.LookupIgnoresSuffix | pkg/common/config/config.go:62-65 | once the name occurs, metrics appended after it do not change the lookup result (the loop returns at the first match) |
| LogMetrics.LookupFront | pkg/common/config/config.go:62-65 | a metric placed first shadows every later metric of the same name |
| LogMetrics.FirstMatchExists | pkg/common/config/config.go:62-65 | if some position holds the name, a first such position exists at or before it, so the loop always has a match to return |
| LogMetrics.IsPassing | pkg/common/config/config.go:89-93 | both bounds are exclusive: a value equal to either threshold fails, and a value can pass only when the high threshold exceeds the low one by at least two |
| LogMetrics.BoundsFail | pkg/common/config/config.go:91-93 | a value equal to either threshold fails: both bounds are exclusive |
| LogMetrics.PassingIsInterval | pkg/common/config/config.go:91-93 | the passing values form an interval: any value between two passing values passes |
| LogMetrics.FailingOutsideBounds | pkg/common/config/config.go:91-93 | every value at or above the high threshold fails, and so does every value at or below the low threshold |
| LogMetrics.NarrowThresholdsPassNothing | pkg/common/config/config.go:91-93 | some value passes exactly when the high threshold exceeds the low threshold by at least two |
| LogMetrics.PassingSetSize | pkg/common/config/config.go:91-93 | the number of passing values is high - low - 1 when high > low, and 0 otherwise |
| LogMetrics.ZeroMetricFailsEverything | pkg/common/config/config.go:68 | the zero metric returned for an unknown name fails every value, since 0 < v < 0 is impossible |
| LogMetrics.AbsentNameNeverPasses | pkg/common/config/config.go:61-69 | the metric the lookup yields for a name no metric carries fails every value |
| LogMetrics.TagDefaultsPass | pkg/common/config/config.go:79-81 | with the tag-default thresholds 9999 and -1, exactly the values 0 through 9998 pass |
| LogMetrics.HasMatches | pkg/common/config/config.go:84-87 | the count is the length of the match list find-all returns for the metric's pattern; whenever that list is well formed (in bounds, left to right, strictly increasing starts) the count is at most the data's length plus one |
| LogMetrics.MatchCountBound | pkg/common/config/config.go:86 | a well-formed match list, as Go's find-all returns it, holds at most one more match than the data has bytes |
| LogMetrics.HasMatchesReadsOnlyPattern | pkg/common/config/config.go:85-86 | two metrics with the same pattern give the same count on the same data: name and thresholds do not matter |
| Resources.NewResource | vendor/github.com/openshift-online/ocm-sdk-go/accountsmgmt/v1/resource_builder.go:34-37 | a new builder has every optional field absent and `link` false |
| Resources.ID | vendor/github.com/openshift-online/ocm-sdk-go/accountsmgmt/v1/resource_builder.go:39-43 | sets `id` to the given value and leaves the other five fields unchanged |
| Resources.HREF | vendor/github.com/openshift-online/ocm-sdk-go/accountsmgmt/v1/resource_builder.go:45-49 | sets `href` to the given value and leaves the other five fields unchanged |
| Resources.Link | vendor/github.com/openshift-online/ocm-sdk-go/accountsmgmt/v1/resource_builder.go:51-55 | sets `link` to the given value and leaves the other five fields unchanged |
| Resources.Allowed | vendor/github.com/openshift-online/ocm-sdk-go/accountsmgmt/v1/resource_builder.go:57-64 | sets `allowed` to the given value and leaves the other five fields unchanged |
| Resources.ResourceName | vendor/github.com/openshift-online/ocm-sdk-go/accountsmgmt/v1/resource_builder.go:66-73 | sets `resourceName` to the given value and leaves the other five fields unchanged |
| Resources.ResourceType | vendor/github.com/openshift-online/ocm-sdk-go/accountsmgmt/v1/resource_builder.go:75-82 | sets `resourceType` to the given value and leaves the other five fields unchanged |
| Resources.LastWriteWins | vendor/github.com/openshift-online/ocm-sdk-go/accountsmgmt/v1/resource_builder.go:40-82 | applying a setter twice equals applying only the second call, for each of the six setters |
| Resources.SettersCommute | vendor/github.com/openshift-online/ocm-sdk-go/accountsmgmt/v1/resource_builder.go:40-82 | setters of different fields may be applied in either order, for all fifteen pairs of the six setters |
| Resources.Copy | vendor/github.com/openshift-online/ocm-sdk-go/accountsmgmt/v1/resource_builder.go:84-96 | copying nil leaves the builder unchanged; copying an object overwrites all six fields with the object's values |
| Resources.Build | vendor/github.com/openshift-online/ocm-sdk-go/accountsmgmt/v1/resource_builder.go:98-114 | build never reports an error, and the object's six fields equal the builder's, because the nil guards only skip writing nil over a field that is already nil |
| Resources.CopyBuildRoundTrip | vendor/github.com/openshift-online/ocm-sdk-go/accountsmgmt/v1/resource_builder.go:84-114 | building after copying a non-nil object gives back that object, whatever the builder held before |
| Resources.BuildCopyRoundTrip | vendor/github.com/openshift-online/ocm-sdk-go/accountsmgmt/v1/resource_builder.go:84-114 | copying a built object into any builder gives back the builder that built it |
| Resources.NewResourceBuildsZero | vendor/github.com/openshift-online/ocm-sdk-go/accountsmgmt/v1/resource_builder.go:35-37 | a fresh builder builds the zero object |
| Resources.CopyIsFreshSetters | vendor/github.com/openshift-online/ocm-sdk-go/accountsmgmt/v1/resource_builder.go:84-96 | copying from any builder equals setting, on a fresh builder, exactly the fields the object holds; so copy keeps no trace of earlier writes, and the setters alone can produce every object |

## Left out

- Environment-variable and YAML resolution of the configuration: the loader that reads the `env`, `default`, `yaml` and `sect` tags is not part of this model. The tags of `pkg/common/config/config.go` are metadata only; the model keeps the two threshold defaults (9999 and -1) as constants.
- The process-wide `Instance` variable: mutable global state with no behaviour of its own.
- The other configuration sections and fields (durations, strings, flags): plain data with no logic.
- Regular-expression semantics: the engine's find-all is a function parameter. The model assumes a valid pattern; the panic of `regexp.MustCompile` on an invalid pattern is not modelled.
- LogMetrics.HasMatches: the count is stated only through what the engine returns; no claim about specific patterns or an empty log is made.
- LogMetrics.GetMetricByName: the Go result is a pointer into the slice, so a caller could change the stored metric through it; the model returns the metric's value and does not model such writes.
- Go's `int` is 64 bits wide; the model uses unbounded integers. The threshold check only compares integers, so no result changes.
- The poll-until-ready loop of `test/operators/certman.go`: it relies on a polling helper from the Kubernetes libraries that is not part of this model, and on live cluster clients.
- The rest of the OCM SDK: JSON marshalling, HTTP clients and the getters of `Resource` are not part of this model. The `Resource` type is modelled by the six fields the builder reads and writes.
