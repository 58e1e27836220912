# DomainModel in Dafny

A verified model of `Sources/DomainModel/DomainModel.swift`, a small domain model with four types:

- **Money** is a value type: an amount in a currency. `convert` goes through an implicit base unit in two steps. The first step maps from the source currency: EUR ×2/3, CAN ÷5×4, GBP ×2, any other code unchanged. The second step maps to the target currency: EUR ×1.5, CAN ×1.25, GBP ÷2, any other code unchanged. `add` converts the receiver into the other operand's currency and sums the two amounts.
- **Job** is a class. It has a title and a `type` that is either `Hourly(wage)` or `Salary(UInt)`. `calculateIncome(hours = 2000)` computes income. `raise(byAmount:)` and `raise(byPercent:)` overwrite the pay in place.
- **Person** is a class. Its `job` and `spouse` are optional public fields, and the initializer leaves both empty.
- **Family** is a class holding an ordered list of members. The initializer marries two persons to each other and makes them the members. `haveChild` appends a child only when some member is older than 21. `householdIncome` sums the incomes of the employed members.

Files:

- `swift_numerics.dfy` (module `SwiftNumerics`): Swift's 64-bit `Int` and `UInt` as the subset types `Int64` and `UInt64`. It also defines `Trunc`, the conversion from a floating-point value to an integer, which rounds toward zero.
- `domain_model.dfy` (module `DomainModel`): the four types, their operations and the lemmas about them.
- `usage.dfy` (module `DomainModelUsage`): a client that constructs concrete jobs, persons and families. It shows what callers can derive from the contracts alone.

Modelling decisions:

- Money amounts and hourly wages are exact `real`s. Money is specified against one reference table, `UnitValue`, which gives the worth of one unit of a currency in the base unit. `ToBase` and `FromBase` are the code's two switches. Their contracts tie each switch to that table, so the table must be consistent with both of them. `Convert` preserves worth, and `Add` adds worth. The round-trip, identity and order-independence laws follow from this.
- Every place where Swift would trap at run time is a precondition:
  - `Int(Double)` out of range in `calculateIncome`, and `Int(UInt)` above `Int.max` (`JobType.IncomeFits`);
  - a negative or out-of-range `Int(byAmount)`, or `UInt` overflow, in `raise(byAmount:)` (`JobType.CanRaiseByAmount`);
  - a `UInt(Double)` conversion outside `0 ..< 2^64` in `raise(byPercent:)` (`JobType.CanRaiseByPercent`);
  - overflow of the running total in `householdIncome` (the second requires of `Family.HouseholdIncome`).
- Hourly income rounds toward zero, because the code uses `Int(Double)`. Flooring would give a different result only for a negative product of hours and wage.
- Person has no age rules. Any person, of any age, may be given a job or a spouse by assigning the field. There is no minimum age of 16 for a job or of 21 for a spouse, and no assignment is silently dropped. The model has no setters of its own either.
- The spouse relation is symmetric only where the code makes it so, in `Family`'s initializer. A later direct assignment to `spouse` can make it one-sided, as in Swift.
- Swift's `[Person]` array has value semantics, so `Family.members` is a `seq<Person>` field that the methods reassign.

## Model

| member | source | states |
|---|---|---|
| SwiftNumerics.Trunc | Sources/DomainModel/DomainModel.swift:67 | the converted integer is the value with its fractional part dropped: the same sign, and less than one away toward zero |
| SwiftNumerics.WholePartUnique | Sources/DomainModel/DomainModel.swift:67 | only one integer is the whole part of a value, so the contract of `Trunc` determines the conversion completely |
| SwiftNumerics.TruncOfInteger | Sources/DomainModel/DomainModel.swift:87 | converting a whole number (such as `Double(salary)`) back to an integer gives that number |
| SwiftNumerics.TruncNonNegative | Sources/DomainModel/DomainModel.swift:87 | the truncation is non-negative exactly when the value is above -1, which is when `UInt(x)` does not trap for being negative |
| DomainModel.UnitValue | Sources/DomainModel/DomainModel.swift:15-38 | every currency unit has a positive worth in the base unit |
| DomainModel.ToBase | Sources/DomainModel/DomainModel.swift:16-26 | the first switch maps an amount to its worth in the base unit under the reference table (EUR 2/3, CAN 4/5, GBP 2, any other code 1) |
| DomainModel.FromBase | Sources/DomainModel/DomainModel.swift:28-37 | the second switch is the exact inverse of the reference table: the result, valued at the target's unit worth, is the base amount |
| DomainModel.Money.Convert | Sources/DomainModel/DomainModel.swift:15-39 | the result is labelled with the target currency and has the same worth as the original |
| DomainModel.Money.Add | Sources/DomainModel/DomainModel.swift:41-44 | the result is in the second operand's currency, and its worth is the sum of both worths; with one shared currency, the amount is the plain sum |
| DomainModel.SameWorthSameMoney | Sources/DomainModel/DomainModel.swift:11-13 | two moneys in the same currency with the same worth are equal |
| DomainModel.ConvertToOwnCurrency | Sources/DomainModel/DomainModel.swift:15-38 | converting money into its own currency changes nothing, for every code including unrecognised ones |
| DomainModel.ConvertThrough | Sources/DomainModel/DomainModel.swift:15-38 | converting via any intermediate currency equals converting directly |
| DomainModel.ConvertRoundTrip | Sources/DomainModel/DomainModel.swift:15-38 | `m.convert(Y).convert(m.currency)` is `m` for every currency Y |
| DomainModel.AddOrderIndependent | Sources/DomainModel/DomainModel.swift:41-44 | `a.add(b)` converted into `a`'s currency equals `b.add(a)`, so the total does not depend on the order |
| DomainModel.JobType.RaisedByAmount | Sources/DomainModel/DomainModel.swift:73-80 | the kind of pay is kept; a wage rises by exactly the amount; a salary rises by the truncated amount and never falls |
| DomainModel.JobType.RaisedByPercent | Sources/DomainModel/DomainModel.swift:82-89 | the kind of pay is kept; a wage gains `wage × percent`; a salary becomes the whole part of `salary × (1 + percent)` |
| DomainModel.HourlyRaiseByAmountUndone | Sources/DomainModel/DomainModel.swift:76 | an hourly raise by an amount is undone by a raise by the opposite amount |
| DomainModel.HourlyRaisesByPercentCompound | Sources/DomainModel/DomainModel.swift:85 | hourly raises by `p` then by `q` are one raise by `p + q + p×q` |
| DomainModel.SalaryRaiseByZeroPercent | Sources/DomainModel/DomainModel.swift:87 | a raise by 0 percent never traps and leaves a salary unchanged |
| DomainModel.Job.constructor | Sources/DomainModel/DomainModel.swift:59-62 | the job gets the given title and pay |
| DomainModel.Job.CalculateIncome | Sources/DomainModel/DomainModel.swift:64-71 | a salary is the income whatever the hours; an hourly income is the whole part of hours × wage |
| DomainModel.Job.RaiseByAmount | Sources/DomainModel/DomainModel.swift:73-80 | only the pay field changes, and it becomes `RaisedByAmount` of the old pay; the title is untouched |
| DomainModel.Job.RaiseByPercent | Sources/DomainModel/DomainModel.swift:82-89 | only the pay field changes, and it becomes `RaisedByPercent` of the old pay; the title is untouched |
| DomainModel.Person.constructor | Sources/DomainModel/DomainModel.swift:102-106 | names and age are set, and the person starts with no job and no spouse |
| DomainModel.Family.constructor | Sources/DomainModel/DomainModel.swift:119-123 | the two persons become each other's spouse, only their spouse fields change, and the members are exactly `[spouse1, spouse2]` |
| DomainModel.Family.HaveChild | Sources/DomainModel/DomainModel.swift:125-133 | returns true exactly when some existing member is strictly older than 21; then the child is appended, and otherwise the members are unchanged |
| DomainModel.Family.HouseholdIncome | Sources/DomainModel/DomainModel.swift:135-143 | the result is the sum over members of their income at 2000 hours, with unemployed members contributing 0 |
| DomainModel.HouseholdSumAppend | Sources/DomainModel/DomainModel.swift:135-143 | the household income of two groups listed one after the other is the sum of their household incomes |
| DomainModel.HouseholdSumOrderIndependent | Sources/DomainModel/DomainModel.swift:135-143 | listing two groups of members in the other order does not change the household income |
| DomainModel.UnemployedAddsNothing | Sources/DomainModel/DomainModel.swift:138-140 | adding a member without a job leaves the household income unchanged |

## Left out

- `DomainModel.text` (lines 1-6) is a placeholder string for the test harness and has no behaviour.
- `Person.toString` (lines 108-110) builds a diagnostic string by interpolation. No rule depends on it, so it is not modelled.
- IEEE-754 rounding: `Double` is an exact `real`. The round-trip and identity laws for `convert` hold in exact arithmetic, not bit for bit in Swift, because 2/3 is not exact in binary floating point. The truncating conversions ignore the rounding of `Double(hours)` and `Double(salary)`.
- Infinities and NaN are not modelled. Hourly wages and money amounts never overflow.
- Run-time traps are preconditions, not behaviour.
- DomainModel.HouseholdSumOrderIndependent: states order independence for swapping two blocks of members, not for an arbitrary permutation.
