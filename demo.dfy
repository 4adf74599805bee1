/**
 The demonstration: pick a factory, build a product, start its engine. The
 log records the program emits are modelled by the sequence of their
 messages, in order; building a vehicle adds no record, starting its engine
 adds exactly one.
 */
module Demo {
  import opened Vehicles
  import opened Factories

  /**
   The message a product of a regional factory logs when started: the given
   make, the region's label, a space, the given model and ": Engine started",
   for every input and for both products.
   */
  lemma FactoryProductLine(r: Region, make: string, model: string)
    ensures EngineMessage(CreateCar(r, make, model)) == make + Suffix(r) + " " + model + ": Engine started"
    ensures EngineMessage(CreateMotorcycle(r, make, model)) == make + Suffix(r) + " " + model + ": Engine started"
  {
  }

  /** A car from the US factory logs the message "<make> (US Spec) <model>: Engine started". */
  lemma UsCarLine(make: string, model: string)
    ensures EngineMessage(CreateCar(US, make, model)) == make + " (US Spec) " + model + ": Engine started"
  {
    FactoryProductLine(US, make, model);
  }

  /** A motorcycle from the EU factory logs the message "<make> (EU Spec) <model>: Engine started". */
  lemma EuMotorcycleLine(make: string, model: string)
    ensures EngineMessage(CreateMotorcycle(EU, make, model)) == make + " (EU Spec) " + model + ": Engine started"
  {
    FactoryProductLine(EU, make, model);
  }

  /** The first scenario message, written out in full. */
  lemma FordMustangLine()
    ensures EngineMessage(CreateCar(US, "Ford", "Mustang")) == "Ford (US Spec) Mustang: Engine started"
  {
    UsCarLine("Ford", "Mustang");
  }

  /** The second scenario message, written out in full. */
  lemma DucatiPanigaleLine()
    ensures EngineMessage(CreateMotorcycle(EU, "Ducati", "Panigale")) == "Ducati (EU Spec) Panigale: Engine started"
  {
    EuMotorcycleLine("Ducati", "Panigale");
  }

  /**
   The messages of the two log records `main` emits: the US factory's car
   first, then the EU factory's motorcycle.
   */
  function RunScenario(): (log: seq<string>)
    ensures log == ["Ford (US Spec) Mustang: Engine started", "Ducati (EU Spec) Panigale: Engine started"]
  {
    var vehicle1 := CreateCar(US, "Ford", "Mustang");
    var message1 := EngineMessage(vehicle1);
    var vehicle2 := CreateMotorcycle(EU, "Ducati", "Panigale");
    var message2 := EngineMessage(vehicle2);
    FordMustangLine();
    DucatiPanigaleLine();
    [message1, message2]
  }
}
