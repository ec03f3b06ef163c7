/** The two records the program's trailing comment shows as its current
    data set, and what loading and flattening make of them. */
module Samples {
  import opened Json
  import opened Balance
  import opened Records
  import opened Salad

  /** An object shaped like the program's sample data. */
  function Person(first: string, last: string, age: real, active: bool,
                  fruit: string, balance: string): Record
  {
    map["age" := Number(age), "balance" := Str(balance),
        "favoriteFruit" := Str(fruit), "isActive" := Bool(active),
        "name" := Object(map["first" := Str(first), "last" := Str(last)])]
  }

  /** Every object of that shape flattens, whatever its values. */
  lemma NormalizePerson(first: string, last: string, age: real, active: bool,
                        fruit: string, balance: string)
    ensures Normalize(Person(first, last, age, active, fruit, balance)) ==
              Ok(Flat(first + " " + last, Number(age), Bool(active), Str(fruit),
                      CleanBalance(balance)))
  {
    var d := Person(first, last, age, active, fruit, balance);
    assert d["name"] == Object(map["first" := Str(first), "last" := Str(last)]);
    assert NamePart(d, "first") == Ok(first) && NamePart(d, "last") == Ok(last);
  }

  /** The first sample object. Its balance is `"$3,317.36"`, written as
      pieces joined by `+` so that the verifier reasons about the cleaning
      through the general lemmas instead of evaluating it character by
      character on a literal. */
  function Fox(): Record
  {
    Person("Fox", "Cummings", 20.0, true, "strawberry", "$" + "3" + "," + "317.36")
  }

  /** The second sample object, balance `"$1,939.57"`. */
  function Marilyn(): Record
  {
    Person("Marilyn", "Sweeney", 38.0, false, "banana", "$" + "1" + "," + "939.57")
  }

  /** The balance of the first sample cleans to the digits and the point. */
  lemma CleanBalanceSample()
    ensures CleanBalance("$" + "3" + "," + "317.36") == "3317.36"
  {
    CleanBalanceOfThousands("3", "317.36");
  }

  /** A comma can shield a `$` from `strip`: the result then starts with
      `$`, and cleaning it a second time changes it. */
  lemma CleanBalanceNotIdempotent()
    ensures CleanBalance(",$5") == "$5"
    ensures CleanBalance("$5") == "5"
  {
    assert StripLeading(",$5", '$') == ",$5";
    assert Strip(",$5", '$') == ",$5";
    assert RemoveAll(",$5", ',') == RemoveAll("$5", ',');
    RemoveAllAbsent("$5", ',');
    CleanBalanceOfCurrency(true, "5");
  }

  /** The first sample flattens to the record the program prints for it,
      with the cleaned string in place of the float. */
  lemma FoxFlattens()
    ensures Normalize(Fox()) ==
              Ok(Flat("Fox Cummings", Number(20.0), Bool(true), Str("strawberry"), "3317.36"))
  {
    NormalizePerson("Fox", "Cummings", 20.0, true, "strawberry", "$" + "3" + "," + "317.36");
    CleanBalanceSample();
    assert "Fox" + " " + "Cummings" == "Fox Cummings";
  }

  /** A file holding the two samples and then a malformed line loads both
      samples, projected, in order. */
  lemma SampleFileLoads()
    ensures Loaded([], [Obj(Fox()), Obj(Marilyn()), Bad]) == [Project(Fox()), Project(Marilyn())]
  {
    ReadRecordsLength([Obj(Fox()), Obj(Marilyn()), Bad], 2);
  }

  /** Flattening the loaded samples succeeds, one flat record each, the
      first of them the flat record of the first sample. */
  lemma SampleFileFlattens()
    ensures var r := NormalizeAll([Project(Fox()), Project(Marilyn())]);
            r.Ok? && |r.value| == 2 && r.value[0].fullName == "Fox Cummings"
  {
    var ds := [Project(Fox()), Project(Marilyn())];
    NormalizeOfProject(Fox());
    NormalizeOfProject(Marilyn());
    FoxFlattens();
    NormalizePerson("Marilyn", "Sweeney", 38.0, false, "banana", "$" + "1" + "," + "939.57");
    assert Normalize(ds[0]).Ok? && Normalize(ds[1]).Ok?;
  }
}
