/**
 * The diesel-versus-electric comparison page (src/pages/CompareVehicles.tsx):
 * eight numbers in, yearly and lifetime running costs, total cost of
 * ownership and CO2 mass for each vehicle out, with the signed
 * "diesel minus electric" savings. Numbers are exact reals.
 */
module VehicleCosts {

  /** kg of CO2 per litre of diesel burnt. */
  const DieselCO2PerLitre: real := 2.68
  /** kg of CO2 per kWh drawn from the average grid. */
  const GridCO2PerKWh: real := 0.4

  /**
   * The page's inputs, already read as numbers. The page labels them in mixed
   * units (fuel in $/gallon, consumption per 100 km, mileage in miles); the
   * formulas take each number as entered.
   */
  datatype Inputs = Inputs(
    dieselPrice: real,          // "Fuel Price ($/gallon)"
    dieselConsumption: real,    // "Consumption (L/100km)"
    dieselCarPrice: real,
    electricityPrice: real,     // "Electricity Price ($/kWh)"
    electricConsumption: real,  // "Consumption (kWh/100km)"
    evPrice: real,
    annualMileage: real,        // "Annual Mileage (miles)"
    yearsOwnership: real)

  datatype DieselFigures = DieselFigures(
    annualFuelCost: real, totalFuelCost: real, totalCost: real, annualCO2: real, totalCO2: real)

  datatype ElectricFigures = ElectricFigures(
    annualEnergyCost: real, totalEnergyCost: real, totalCost: real, annualCO2: real, totalCO2: real)

  /** Each field is the diesel figure minus the electric one. */
  datatype Savings = Savings(annual: real, total: real, co2Annual: real, co2Total: real)

  datatype Results = Results(diesel: DieselFigures, electric: ElectricFigures, savings: Savings)

  /** The values the page's inputs start with. */
  const Defaults: Inputs := Inputs(4.5, 6.5, 35000.0, 0.15, 18.0, 45000.0, 12000.0, 5.0)

  /** Fuel or energy used in a year: distance / 100 times the consumption rate. */
  function PerYear(mileage: real, consumption: real): (v: real)
    ensures v * 100.0 == mileage * consumption
  {
    (mileage / 100.0) * consumption
  }

  /** The comparison the page renders. */
  function CalculateCosts(i: Inputs): (r: Results)
    // yearly running cost: distance * consumption * unit price / 100
    ensures r.diesel.annualFuelCost * 100.0 == i.annualMileage * i.dieselConsumption * i.dieselPrice
    ensures r.electric.annualEnergyCost * 100.0 == i.annualMileage * i.electricConsumption * i.electricityPrice
    // lifetime running cost is the yearly cost over the years owned; total adds the purchase price
    ensures r.diesel.totalFuelCost == r.diesel.annualFuelCost * i.yearsOwnership
    ensures r.electric.totalEnergyCost == r.electric.annualEnergyCost * i.yearsOwnership
    ensures r.diesel.totalCost == i.dieselCarPrice + r.diesel.totalFuelCost
    ensures r.electric.totalCost == i.evPrice + r.electric.totalEnergyCost
    // CO2 mass: fuel or energy times its fixed emission factor, then over the years owned
    ensures r.diesel.annualCO2 * 100.0 == i.annualMileage * i.dieselConsumption * DieselCO2PerLitre
    ensures r.electric.annualCO2 * 100.0 == i.annualMileage * i.electricConsumption * GridCO2PerKWh
    ensures r.diesel.totalCO2 == r.diesel.annualCO2 * i.yearsOwnership
    ensures r.electric.totalCO2 == r.electric.annualCO2 * i.yearsOwnership
    // every saving is diesel minus electric
    ensures r.savings.annual == r.diesel.annualFuelCost - r.electric.annualEnergyCost
    ensures r.savings.total == r.diesel.totalCost - r.electric.totalCost
    ensures r.savings.co2Annual == r.diesel.annualCO2 - r.electric.annualCO2
    ensures r.savings.co2Total == r.diesel.totalCO2 - r.electric.totalCO2
  {
    var mileage := i.annualMileage;
    var years := i.yearsOwnership;
    var dieselFuelPerYear := PerYear(mileage, i.dieselConsumption);
    var dieselCostPerYear := dieselFuelPerYear * i.dieselPrice;
    var dieselTotalFuel := dieselCostPerYear * years;
    var dieselTotal := i.dieselCarPrice + dieselTotalFuel;
    var dieselCO2PerYear := dieselFuelPerYear * DieselCO2PerLitre;
    var electricEnergyPerYear := PerYear(mileage, i.electricConsumption);
    var electricCostPerYear := electricEnergyPerYear * i.electricityPrice;
    var electricTotalEnergy := electricCostPerYear * years;
    var electricTotal := i.evPrice + electricTotalEnergy;
    var electricCO2PerYear := electricEnergyPerYear * GridCO2PerKWh;
    assert (dieselCO2PerYear - electricCO2PerYear) * years
      == dieselCO2PerYear * years - electricCO2PerYear * years;
    Results(
      DieselFigures(dieselCostPerYear, dieselTotalFuel, dieselTotal, dieselCO2PerYear, dieselCO2PerYear * years),
      ElectricFigures(electricCostPerYear, electricTotalEnergy, electricTotal, electricCO2PerYear, electricCO2PerYear * years),
      Savings(
        dieselCostPerYear - electricCostPerYear,
        dieselTotal - electricTotal,
        dieselCO2PerYear - electricCO2PerYear,
        (dieselCO2PerYear - electricCO2PerYear) * years))
  }

  /** Total savings split into the purchase-price gap and the running-cost gap over the years owned. */
  lemma TotalSavingsSplit(i: Inputs)
    ensures var s := CalculateCosts(i).savings;
      s.total == (i.dieselCarPrice - i.evPrice) + s.annual * i.yearsOwnership
      && s.co2Total == s.co2Annual * i.yearsOwnership
  {
    var r := CalculateCosts(i);
    var y := i.yearsOwnership;
    assert (r.diesel.annualFuelCost - r.electric.annualEnergyCost) * y
      == r.diesel.annualFuelCost * y - r.electric.annualEnergyCost * y;
    assert (r.diesel.annualCO2 - r.electric.annualCO2) * y
      == r.diesel.annualCO2 * y - r.electric.annualCO2 * y;
  }

  /** Owning for zero years: no running cost and no CO2, each total cost is the purchase price. */
  lemma ZeroYears(i: Inputs)
    requires i.yearsOwnership == 0.0
    ensures var r := CalculateCosts(i);
      && r.diesel.totalFuelCost == 0.0 && r.electric.totalEnergyCost == 0.0
      && r.diesel.totalCO2 == 0.0 && r.electric.totalCO2 == 0.0 && r.savings.co2Total == 0.0
      && r.diesel.totalCost == i.dieselCarPrice && r.electric.totalCost == i.evPrice
      && r.savings.total == i.dieselCarPrice - i.evPrice
  {
  }

  /** The page as first shown. */
  lemma DefaultScenario()
    ensures var r := CalculateCosts(Defaults);
      && r.diesel.annualFuelCost == 3510.0 && r.electric.annualEnergyCost == 324.0
      && r.diesel.totalFuelCost == 17550.0 && r.electric.totalEnergyCost == 1620.0
      && r.diesel.totalCost == 52550.0 && r.electric.totalCost == 46620.0
      && r.savings.annual == 3186.0 && r.savings.total == 5930.0
      && r.diesel.annualCO2 == 2090.4 && r.electric.annualCO2 == 864.0
      && r.savings.co2Annual == 1226.4 && r.savings.co2Total == 6132.0
  {
  }

  /**
   * Break-even: when the electric car is cheaper to run, it is cheaper overall
   * exactly when it is owned for longer than its extra purchase price takes to
   * recover from the yearly saving.
   */
  lemma BreakEven(i: Inputs)
    requires CalculateCosts(i).savings.annual > 0.0
    ensures var s := CalculateCosts(i).savings;
      s.total > 0.0 <==> i.yearsOwnership > (i.evPrice - i.dieselCarPrice) / s.annual
  {
    var s := CalculateCosts(i).savings;
    TotalSavingsSplit(i);
    var payback := (i.evPrice - i.dieselCarPrice) / s.annual;
    assert payback * s.annual == i.evPrice - i.dieselCarPrice;
    assert s.total == (i.yearsOwnership - payback) * s.annual;
    if i.yearsOwnership > payback {
      assert (i.yearsOwnership - payback) * s.annual > 0.0;
    } else {
      assert (i.yearsOwnership - payback) * s.annual <= 0.0;
    }
  }

  /** With a positive yearly saving, owning longer never shrinks the total saving. */
  lemma SavingsGrowWithYears(i: Inputs, longer: real)
    requires CalculateCosts(i).savings.annual > 0.0
    requires longer >= i.yearsOwnership
    ensures CalculateCosts(i.(yearsOwnership := longer)).savings.total >= CalculateCosts(i).savings.total
  {
    var j := i.(yearsOwnership := longer);
    TotalSavingsSplit(i);
    TotalSavingsSplit(j);
    var a := CalculateCosts(i).savings.annual;
    assert CalculateCosts(j).savings.annual == a;
    assert a * longer - a * i.yearsOwnership == a * (longer - i.yearsOwnership);
    assert a * (longer - i.yearsOwnership) >= 0.0;
  }

  const ElectricSaves: string := "Electric Saves Money"
  const DieselSaves: string := "Diesel Saves Money"

  /** The savings tab's heading: electric only for a strictly positive total saving. */
  function Headline(total: real): (heading: string)
    ensures heading == ElectricSaves <==> total > 0.0
    ensures heading == DieselSaves <==> total <= 0.0
  {
    if total > 0.0 then ElectricSaves else DieselSaves
  }

  /** Magnitude of a figure, as the savings tab shows it. */
  function Abs(x: real): (m: real)
    ensures m >= 0.0
    ensures m == x || m == -x
  {
    if x < 0.0 then -x else x
  }

  /** What the savings tab shows: a heading and four unsigned figures. */
  datatype SavingsView = SavingsView(headline: string, annual: real, total: real, co2Annual: real, co2Total: real)

  function SavingsTab(s: Savings): (v: SavingsView)
    ensures v.annual >= 0.0 && v.total >= 0.0 && v.co2Annual >= 0.0 && v.co2Total >= 0.0
    ensures v.annual == s.annual || v.annual == -s.annual
    ensures v.total == s.total || v.total == -s.total
    ensures v.co2Annual == s.co2Annual || v.co2Annual == -s.co2Annual
    ensures v.co2Total == s.co2Total || v.co2Total == -s.co2Total
    ensures v.headline == ElectricSaves <==> s.total > 0.0
    ensures s.total <= 0.0 ==> v.headline == DieselSaves
  {
    SavingsView(Headline(s.total), Abs(s.annual), Abs(s.total), Abs(s.co2Annual), Abs(s.co2Total))
  }

  /** The heading and the unsigned total together give back the signed total saving. */
  lemma SavingsTabKeepsTotal(s: Savings)
    ensures var v := SavingsTab(s);
      (if v.headline == ElectricSaves then v.total else -v.total) == s.total
  {
  }

  /**
   * The heading follows the total only: a dearer-to-run electric car that is
   * cheaper overall is shown as "Electric Saves Money" over a positive annual
   * saving, although it costs 810 more a year.
   */
  lemma TabHidesAnnualSign()
    ensures var i := Defaults.(evPrice := 20000.0, electricityPrice := 2.0);
      var s := CalculateCosts(i).savings;
      && s.annual == -810.0 && s.total == 10950.0
      && SavingsTab(s).headline == ElectricSaves && SavingsTab(s).annual == 810.0
  {
  }
}
