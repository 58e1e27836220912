/**
 * The domain model of DomainModel.swift: money in several currencies, jobs
 * paid by the hour or by salary, persons, and families.
 *
 * Floating-point quantities (`Double`) are exact `real`s; Swift's `Int` and
 * `UInt` are 64-bit, and every conversion or addition that would trap at run
 * time is a precondition.
 */
module DomainModel {
  import opened SwiftNumerics

  ////////////////////////////////////
  // Money

  /**
   * What one unit of `currency` is worth in the implicit base unit that every
   * conversion goes through. Unrecognised codes (including "USD") are the base.
   * This single table is the reference that the two conversion tables below
   * are checked against.
   */
  function UnitValue(currency: string): (v: real)
    ensures v > 0.0
  {
    if currency == "EUR" then 2.0 / 3.0
    else if currency == "CAN" then 4.0 / 5.0
    else if currency == "GBP" then 2.0
    else 1.0
  }

  /** The first switch of `convert`: from the source currency to the base unit. */
  function ToBase(amount: real, currency: string): (base: real)
    ensures base == amount * UnitValue(currency)
  {
    if currency == "EUR" then amount * 2.0 / 3.0
    else if currency == "CAN" then amount / 5.0 * 4.0
    else if currency == "GBP" then amount * 2.0
    else amount
  }

  /** The second switch of `convert`: from the base unit to the target currency. */
  function FromBase(base: real, currency: string): (amount: real)
    ensures amount * UnitValue(currency) == base
  {
    if currency == "EUR" then base * 1.5
    else if currency == "CAN" then base * 1.25
    else if currency == "GBP" then base / 2.0
    else base
  }

  datatype Money = Money(amount: real, currency: string) {

    /** What this money is worth in the base unit. */
    function Value(): real {
      amount * UnitValue(currency)
    }

    /** The same worth, expressed in `target`. */
    function Convert(target: string): (r: Money)
      ensures r.currency == target
      ensures r.Value() == Value()
    {
      var base := ToBase(amount, currency);
      Money(FromBase(base, target), target)
    }

    /** The sum of both operands' worth, expressed in the currency of `next`. */
    function Add(next: Money): (r: Money)
      ensures r.currency == next.currency
      ensures r.Value() == Value() + next.Value()
      ensures currency == next.currency ==> r.amount == amount + next.amount
    {
      var converted := Convert(next.currency);
      Money(converted.amount + next.amount, next.currency)
    }
  }

  /** A currency and a worth determine the money: the amount is recoverable from the worth. */
  lemma SameWorthSameMoney(m: Money, n: Money)
    requires m.currency == n.currency && m.Value() == n.Value()
    ensures m == n
  {
    var u := UnitValue(m.currency);
    assert m.amount * u == n.amount * u;
    assert m.amount == m.amount * u / u == n.amount * u / u == n.amount;
  }

  /** Converting money into its own currency leaves the amount unchanged. */
  lemma ConvertToOwnCurrency(m: Money)
    ensures m.Convert(m.currency) == m
  {
    SameWorthSameMoney(m.Convert(m.currency), m);
  }

  /** Converting through any intermediate currency is the same as converting directly. */
  lemma ConvertThrough(m: Money, via: string, target: string)
    ensures m.Convert(via).Convert(target) == m.Convert(target)
  {
    SameWorthSameMoney(m.Convert(via).Convert(target), m.Convert(target));
  }

  /** Round trip: converting to any currency and back restores the original money. */
  lemma ConvertRoundTrip(m: Money, other: string)
    ensures m.Convert(other).Convert(m.currency) == m
  {
    ConvertThrough(m, other, m.currency);
    ConvertToOwnCurrency(m);
  }

  /**
   * `Add` is not commutative in its currency, but the total is the same either
   * way round: `a.Add(b)`, expressed in `a`'s currency, is `b.Add(a)`.
   */
  lemma AddOrderIndependent(a: Money, b: Money)
    ensures a.Add(b).Convert(a.currency) == b.Add(a)
  {
    SameWorthSameMoney(a.Add(b).Convert(a.currency), b.Add(a));
  }

  ////////////////////////////////////
  // Job

  /** A job's hours when none are given. */
  const DefaultHours: Int64 := 2000

  /** How a job pays: an hourly wage, or an annual salary held in a `UInt`. */
  datatype JobType = Hourly(wage: real) | Salary(salary: UInt64) {

    /** `calculateIncome(hours)` does not trap: the result fits in an `Int`. */
    predicate IncomeFits(hours: Int64) {
      match this
      case Hourly(wage) => IntMin <= Trunc(hours as real * wage) <= IntMax
      case Salary(salary) => salary <= IntMax
    }

    /**
     * `raise(byAmount:)` does not trap: for a salary, the amount truncates to a
     * non-negative `Int` and the new salary fits in a `UInt`.
     */
    predicate CanRaiseByAmount(amount: real) {
      match this
      case Hourly(_) => true
      case Salary(salary) => 0 <= Trunc(amount) <= IntMax && salary + Trunc(amount) <= UIntMax
    }

    /** `raise(byPercent:)` does not trap: for a salary, the raised value truncates into `UInt`. */
    predicate CanRaiseByPercent(percent: real) {
      match this
      case Hourly(_) => true
      case Salary(salary) => 0 <= Trunc(salary as real * (1.0 + percent)) <= UIntMax
    }

    /** The pay after `raise(byAmount:)`. */
    function RaisedByAmount(amount: real): (r: JobType)
      requires CanRaiseByAmount(amount)
      ensures r.Hourly? == Hourly?
      ensures Hourly? ==> r.wage - wage == amount
      ensures Salary? ==> r.salary - salary == Trunc(amount) && r.salary >= salary
    {
      match this
      case Hourly(wage) => Hourly(wage + amount)
      case Salary(salary) => Salary(salary + Trunc(amount))
    }

    /** The pay after `raise(byPercent:)`. */
    function RaisedByPercent(percent: real): (r: JobType)
      requires CanRaiseByPercent(percent)
      ensures r.Hourly? == Hourly?
      ensures Hourly? ==> r.wage == wage + wage * percent
      ensures Salary? ==> IsWholePart(r.salary, salary as real * (1.0 + percent))
    {
      match this
      case Hourly(wage) => Hourly(wage * (1.0 + percent))
      case Salary(salary) => Salary(Trunc(salary as real * (1.0 + percent)))
    }
  }

  /** An hourly raise by an amount is undone by a raise by the opposite amount. */
  lemma HourlyRaiseByAmountUndone(w: real, amount: real)
    ensures Hourly(w).RaisedByAmount(amount).RaisedByAmount(-amount) == Hourly(w)
  {
  }

  /** Two hourly raises by percent compound into one. */
  lemma HourlyRaisesByPercentCompound(w: real, p: real, q: real)
    ensures Hourly(w).RaisedByPercent(p).RaisedByPercent(q) == Hourly(w).RaisedByPercent(p + q + p * q)
  {
    assert w * (1.0 + p) * (1.0 + q) == w * (1.0 + (p + q + p * q));
  }

  /** A raise of zero percent leaves a salary as it is. */
  lemma SalaryRaiseByZeroPercent(s: UInt64)
    ensures Salary(s).CanRaiseByPercent(0.0)
    ensures Salary(s).RaisedByPercent(0.0) == Salary(s)
  {
    assert s as real * (1.0 + 0.0) == s as real;
    TruncOfInteger(s);
  }

  class Job {
    var title: string
    var jobType: JobType

    constructor(title: string, jobType: JobType)
      ensures this.title == title && this.jobType == jobType
    {
      this.title := title;
      this.jobType := jobType;
    }

    /**
     * Income for the given hours: a salary regardless of the hours, or the
     * hours times the wage with its fractional part dropped.
     */
    function CalculateIncome(hours: Int64): (income: Int64)
      reads this
      requires jobType.IncomeFits(hours)
      ensures jobType.Salary? ==> income == jobType.salary
      ensures jobType.Hourly? ==> IsWholePart(income, hours as real * jobType.wage)
    {
      match jobType
      case Hourly(wage) => Trunc(hours as real * wage)
      case Salary(salary) => salary
    }

    /** `raise(byAmount:)`: the title and the kind of pay stay; the pay rises by the amount. */
    method RaiseByAmount(amount: real)
      requires jobType.CanRaiseByAmount(amount)
      modifies this`jobType
      ensures jobType == old(jobType).RaisedByAmount(amount)
    {
      match jobType
      case Hourly(wage) =>
        jobType := Hourly(wage + amount);
      case Salary(salary) =>
        jobType := Salary(salary + Trunc(amount));
    }

    /** `raise(byPercent:)`: the title and the kind of pay stay; the pay is scaled by `1 + percent`. */
    method RaiseByPercent(percent: real)
      requires jobType.CanRaiseByPercent(percent)
      modifies this`jobType
      ensures jobType == old(jobType).RaisedByPercent(percent)
    {
      match jobType
      case Hourly(hourly) =>
        jobType := Hourly(hourly * (1.0 + percent));
      case Salary(salary) =>
        jobType := Salary(Trunc(salary as real * (1.0 + percent)));
    }
  }

  ////////////////////////////////////
  // Person

  /** A person. Job and spouse are plain public fields, with no conditions on who may hold them. */
  class Person {
    var firstName: string
    var lastName: string
    var age: Int64
    var job: Job?
    var spouse: Person?

    constructor(firstName: string, lastName: string, age: Int64)
      ensures this.firstName == firstName && this.lastName == lastName && this.age == age
      ensures job == null && spouse == null
    {
      this.firstName := firstName;
      this.lastName := lastName;
      this.age := age;
      this.job := null;
      this.spouse := null;
    }
  }

  ////////////////////////////////////
  // Family

  /** The jobs held by members of `ms` (with `null` for the unemployed). */
  ghost function JobsOf(ms: seq<Person>): set<Job?>
    reads ms
  {
    set p | p in ms :: p.job
  }

  /** Some member of `ms` is older than 21. */
  ghost predicate HasAdult(ms: seq<Person>)
    reads ms
  {
    exists i :: 0 <= i < |ms| && ms[i].age > 21
  }

  /** Every employed member's income at the default hours can be computed without trapping. */
  ghost predicate IncomesFit(ms: seq<Person>)
    reads ms, JobsOf(ms)
  {
    forall p :: p in ms && p.job != null ==> p.job.jobType.IncomeFits(DefaultHours)
  }

  /** What one member adds to the household income: 0 without a job. */
  ghost function Contribution(p: Person): int
    reads p, p.job
    requires p.job != null ==> p.job.jobType.IncomeFits(DefaultHours)
  {
    if p.job == null then 0 else p.job.CalculateIncome(DefaultHours)
  }

  /** The household income of `ms`, summed from the first member to the last. */
  ghost function HouseholdSum(ms: seq<Person>): int
    reads ms, JobsOf(ms)
    requires IncomesFit(ms)
  {
    if ms == [] then 0
    else HouseholdSum(ms[..|ms| - 1]) + Contribution(ms[|ms| - 1])
  }

  /** The household income of a concatenation is the sum of the parts' incomes. */
  lemma {:induction false} HouseholdSumAppend(a: seq<Person>, b: seq<Person>)
    requires IncomesFit(a + b)
    ensures IncomesFit(a) && IncomesFit(b)
    ensures HouseholdSum(a + b) == HouseholdSum(a) + HouseholdSum(b)
  {
    if b == [] {
      assert a + b == a;
    } else {
      assert (a + b)[..|a + b| - 1] == a + b[..|b| - 1];
      HouseholdSumAppend(a, b[..|b| - 1]);
    }
  }

  /** The order in which two groups of members are listed does not change the household income. */
  lemma HouseholdSumOrderIndependent(a: seq<Person>, b: seq<Person>)
    requires IncomesFit(a + b)
    ensures IncomesFit(b + a)
    ensures HouseholdSum(a + b) == HouseholdSum(b + a)
  {
    HouseholdSumAppend(a, b);
    assert IncomesFit(b + a);
    HouseholdSumAppend(b, a);
  }

  /** A member without a job adds nothing to the household income. */
  lemma UnemployedAddsNothing(ms: seq<Person>, p: Person)
    requires IncomesFit(ms) && p.job == null
    ensures IncomesFit(ms + [p])
    ensures HouseholdSum(ms + [p]) == HouseholdSum(ms)
  {
    assert (ms + [p])[..|ms + [p]| - 1] == ms;
  }

  class Family {
    var members: seq<Person>

    /** Marries the two persons to each other and makes them the family's members. */
    constructor(spouse1: Person, spouse2: Person)
      modifies spouse1`spouse, spouse2`spouse
      ensures spouse1.spouse == spouse2 && spouse2.spouse == spouse1
      ensures members == [spouse1, spouse2]
    {
      spouse1.spouse := spouse2;
      spouse2.spouse := spouse1;
      members := [spouse1, spouse2];
    }

    /** Appends `child` exactly when some current member is older than 21, and says whether it did. */
    method HaveChild(child: Person) returns (added: bool)
      modifies this`members
      ensures added <==> HasAdult(old(members))
      ensures members == if added then old(members) + [child] else old(members)
    {
      for i := 0 to |members|
        invariant members == old(members)
        invariant forall j :: 0 <= j < i ==> members[j].age <= 21
      {
        if members[i].age > 21 {
          members := members + [child];
          return true;
        }
      }
      return false;
    }

    /** The sum of the employed members' incomes at the default hours. */
    method HouseholdIncome() returns (totalIncome: Int64)
      requires IncomesFit(members)
      requires forall k :: 0 <= k <= |members| ==> IntMin <= HouseholdSum(members[..k]) <= IntMax
      ensures totalIncome == HouseholdSum(members)
    {
      totalIncome := 0;
      for i := 0 to |members|
        invariant totalIncome == HouseholdSum(members[..i])
      {
        var member := members[i];
        assert members[..i + 1][..i] == members[..i];
        if member.job != null {
          totalIncome := totalIncome + member.job.CalculateIncome(DefaultHours);
        }
        assert totalIncome == HouseholdSum(members[..i + 1]);
      }
      assert members[..|members|] == members;
    }
  }
}
