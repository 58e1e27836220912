/**
 * A client of the domain model: concrete situations, checked against the
 * contracts alone.
 */
module DomainModelUsage {
  import opened SwiftNumerics
  import opened DomainModel

  method MoneyUsage() {
    var tenUsd := Money(10.0, "USD");
    var inGbp := tenUsd.Convert("GBP");
    assert inGbp == Money(5.0, "GBP");
    var fiveGbp := Money(5.0, "GBP");
    var sum := fiveGbp.Add(tenUsd);
    assert sum.currency == "USD";
    assert sum.amount == 20.0;
    ConvertRoundTrip(Money(12.0, "EUR"), "CAN");
    assert Money(12.0, "EUR").Convert("CAN").Convert("EUR") == Money(12.0, "EUR");
  }

  method JobUsage() {
    var hourly := new Job("Guest Lecturer", Hourly(10.0));
    var income := hourly.CalculateIncome(DefaultHours);
    WholePartUnique(income, 20000, 20000.0);
    assert income == 20000;

    var salaried := new Job("Guest Lecturer", Salary(1000));
    assert salaried.CalculateIncome(DefaultHours) == 1000;
    assert salaried.CalculateIncome(10) == 1000;

    var raised := new Job("Janitor", Hourly(20.0));
    raised.RaiseByPercent(0.1);
    assert raised.jobType == Hourly(22.0);
    assert raised.title == "Janitor";

    salaried.RaiseByAmount(200.0);
    TruncOfInteger(200);
    assert salaried.jobType == Salary(1200);
  }

  method HouseholdIncomeUsage() {
    var ted := new Person("Ted", "Neward", 45);
    var charlotte := new Person("Charlotte", "Neward", 45);
    ted.job := new Job("Guest Lecturer", Salary(1000));
    var family := new Family(ted, charlotte);
    assert ted.spouse == charlotte && charlotte.spouse == ted;

    var ms := family.members;
    assert ms[..0] == [] && ms[..1] == [ted] && ms[..2] == ms;
    assert [ted, charlotte][..1] == [ted];
    assert HouseholdSum([ted]) == 1000;
    assert HouseholdSum(ms) == 1000;
    var income := family.HouseholdIncome();
    assert family.members == ms;
    assert ted.job.jobType == Salary(1000) && charlotte.job == null;
    assert HouseholdSum([ted]) == 1000;
    assert HouseholdSum(ms) == 1000;
    assert income == 1000;
  }

  method AdultFamilyHasChild() {
    var ted := new Person("Ted", "Neward", 45);
    var charlotte := new Person("Charlotte", "Neward", 45);
    var family := new Family(ted, charlotte);
    assert family.members[0].age > 21;
    var mike := new Person("Mike", "Neward", 22);
    var added := family.HaveChild(mike);
    assert added;
    assert family.members == [ted, charlotte, mike];
  }

  method YoungFamilyHasNoChild() {
    var ann := new Person("Ann", "Young", 19);
    var bob := new Person("Bob", "Young", 21);
    var young := new Family(ann, bob);
    assert young.members[0].age <= 21 && young.members[1].age <= 21;
    var baby := new Person("Cy", "Young", 0);
    var added := young.HaveChild(baby);
    assert !added;
    assert young.members == [ann, bob];
  }
}
