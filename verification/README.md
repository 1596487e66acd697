# Battery range evaluator — Dafny model

This project models the battery-telemetry checker of `checker.cs`. The checker takes three
readings: temperature, state of charge (SOC) and charge rate. It decides whether the battery
is ok, and it prints notifications along the way. It has three groups of predicates:

- **Range predicates.** Temperature must lie in [0, 45] and SOC in [20, 80], both inclusive.
  The charge rate must not exceed 0.8. That limit is named `CHARGERATE_LOWER_LIMIT`, but it
  acts as an upper bound. No lower bound is checked, so a rate of 0 is valid. A failing
  predicate emits its out-of-range notification.
- **Warning zone.** Two tolerance helpers shift a reading by 5% of a limit. Two near-limit
  checks then compare the shifted reading with the reading itself. Each check runs its
  notification action when it fires. The SOC and temperature monitors combine a lower and
  an upper check with `||`; the lower check carries a discharge warning and the upper check
  a peak warning. The charge-rate monitor is a single lower check with a discharge warning.
- **Decision.** `batteryIsOk` is `!isBatteryInWarningRange && isBatteryInValidRange`.
  Both sides are `&&` chains.

Printing is modelled as data. Every predicate returns an `Evaluation.Eval`: its boolean result
and the sequence of message kinds it emitted (`TempOutOfRange`, `SocOutOfRange`,
`ChargeOutOfRange`, `WarningDischarge`, `WarningPeak`). `Evaluation.And` and `Evaluation.Or`
model C#'s short-circuit `&&` and `||`. A right operand that is not evaluated contributes
no notifications. `Evaluation.All` models an `&&` chain over a sequence of operands. It is
proved against an eager reference, `Evaluation.AllEager`, in which every operand is evaluated.

The near-limit checks are modelled as written. `value + 0.05 * limit >= value` holds exactly
when `limit >= 0`, and `value - 0.05 * limit <= value` holds under the same condition. In
both cases the reading drops out. All configured limits (0, 20, 45, 80, 0.8) are
non-negative. So every monitor fires on every input and emits only a discharge warning, and
the warning chain always holds. As a result, `batteryIsOk` is false for every real input,
and it never evaluates the validity predicates. This agrees with every `batteryIsOk` assertion at the
program's entry point. The evident intent was a 5% band around each limit. The model does not
substitute that intent for the code.

Files: `evaluation.dfy` (module `Evaluation`: message kinds, short-circuit operators, `&&`
chains) and `checker.dfy` (module `Checker`: constants, predicates, decision, properties).

## Model

| member | source | states |
|---|---|---|
| Checker.IsTemperatureInValidRange | checker.cs:32-41 | valid exactly when 0 <= t <= 45, both ends inclusive; emits exactly `[TempOutOfRange]` when invalid and nothing when valid |
| Checker.IsStateOfChargeInValidRange | checker.cs:46-54 | valid exactly when 20 <= soc <= 80, both ends inclusive; emits exactly `[SocOutOfRange]` when invalid and nothing otherwise |
| Checker.IsChargeRateInValidRange | checker.cs:58-67 | valid exactly when rate <= 0.8, with no lower bound; emits exactly `[ChargeOutOfRange]` when invalid |
| Checker.IsBatteryInValidRange | checker.cs:22-24 | holds exactly when all three readings are in range; emits only the first failing reading's message, checked in the order temperature, SOC, charge rate, so at most one message |
| Checker.UpperToleranceValue | checker.cs:74-78 | the reading shifted down by 5% of the upper limit (20 times the shift equals the limit); the shifted value is at most the reading exactly when the upper limit is non-negative, and equals it exactly when the limit is 0 |
| Checker.LowerToleranceValue | checker.cs:79-82 | the reading shifted up by 5% of the lower limit (20 times the shift equals the limit); the shifted value is at least the reading exactly when the lower limit is non-negative, and equals it exactly when the limit is 0 |
| Checker.IsLowerLimitInWarningRange | checker.cs:84-92 | fires exactly when the limit is >= 0, whatever the reading; emits its notice exactly when it fires |
| Checker.IsUpperLimitInWarningRange | checker.cs:94-102 | fires exactly when the limit is >= 0, whatever the reading; emits its notice exactly when it fires |
| Checker.MonitorSocWarningRange | checker.cs:104-112 | holds for every SOC; the `||` stops at the lower check, so it emits exactly `[WarningDischarge]` and never a peak warning |
| Checker.MonitorChargeRateWarningRange | checker.cs:115-123 | holds for every charge rate and emits exactly `[WarningDischarge]` |
| Checker.MonitorTemperatureWarningRange | checker.cs:125-132 | holds for every temperature; emits exactly `[WarningDischarge]` and never a peak warning |
| Checker.IsBatteryInWarningRange | checker.cs:26-29 | holds for every real input; emits exactly three discharge warnings, one per monitor (the messages are alike, so the contract cannot show the order in which the monitors run) |
| Checker.BatteryIsOk | checker.cs:16-20 | false for every real input; its whole notification trace is the three discharge warnings, so no out-of-range message is ever emitted |
| Checker.BatteryIsOkSkipsValidity | checker.cs:18 | evaluating both operands of the decision gives the same answer; the short-circuit trace is the eager trace minus the validity chain's messages |
| Checker.EntryPointAssertions | checker.cs:137-186 | every assertion made by the entry point holds in the model |
| Evaluation.All | checker.cs:23 | an `&&` chain holds exactly when every operand holds; it emits the notifications of the operands up to the first failing one, and none from operands after it |
| Evaluation.Evaluated | checker.cs:23 | the number of operands a short-circuit chain evaluates is all of them when every operand holds; otherwise it ends at the first failing operand |
| Evaluation.AllOfThree | checker.cs:27-28 | the sequence chain over `[a, b, c]` equals `(a && b) && c`, which is how C# groups a three-operand chain |
| Evaluation.ShortCircuitAgreesWithEager | checker.cs:22-29 | the notifications of a short-circuit chain are a prefix of those of its eager evaluation, and all of them when the chain holds (agreement on the value already follows from the contract of `All`) |
| Evaluation.And | checker.cs:18 | `a && b` holds exactly when both operands hold |
| Evaluation.Not | checker.cs:18 | `!a` flips the value and keeps the operand's notifications |
| Evaluation.AndAgreesWithEager | checker.cs:23 | `a && b` emits a prefix of both operands' notifications that starts with all of `a`'s; it is exactly `a`'s when `a` fails, and all of both exactly when `a` holds or `b` emits nothing |
| Evaluation.AndIsChainOfTwo | checker.cs:18 | `a && b` equals the two-operand chain `[a, b]`, value and notifications alike |
| Evaluation.Or | checker.cs:106 | `a \|\| b` holds exactly when either operand holds |
| Evaluation.OrAgreesWithEager | checker.cs:127 | `a \|\| b` emits a prefix of both operands' notifications that starts with all of `a`'s; it is exactly `a`'s when `a` holds, and all of both exactly when `a` fails or `b` emits nothing |
| Evaluation.OrIsDualOfAnd | checker.cs:104-132 | `a \|\| b` evaluates exactly like `!(!a && !b)`, value and notifications alike |

## Left out

- `printText` and `Console.WriteLine` (checker.cs:69-72) are output I/O. They are replaced by the returned message trace.
- The `Resource` localisation class and the German culture setting (checker.cs:3, 136) are external resources, and their message texts are not part of this model. Only the message kinds are modelled.
- The entry point's `Console.Read`, its return code and the `Debug.Assert` mechanism (checker.cs:133-191) are left out. Its assertions are restated as `Checker.EntryPointAssertions`.
- IEEE-754 `double` behaviour is not modelled: readings are `real`. So NaN (which makes every comparison false), infinities and the rounding of `0.05 * limit` are outside the model. With doubles and NaN readings, the range predicates would report NaN as in range. The near-limit checks would not fire on a NaN reading.
- Checker.BatteryIsOk: its "never ok" promise holds for real readings only. On doubles, a NaN reading changes the outcome. Take a NaN temperature with SOC and charge rate in range. Both comparisons of the temperature monitor are false, so the warning chain fails and its negation lets the validity chain run. The NaN temperature then passes the range check, so the program returns true, with trace `[WarningDischarge, WarningDischarge]`. A NaN reading is the only way the program can report ok.
- The notification actions passed to the near-limit checks are arbitrary callbacks in the source. Here each action is the single message kind it prints, which is the only way the source uses them.
