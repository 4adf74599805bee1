/**
 The product side of the abstract factory: the two kinds of vehicle and the
 message a vehicle logs when its engine is started.

 `Vehicle` in the program is an abstract base class with two concrete
 subclasses that add nothing but their own `start_engine`. Here the base
 class and its subclasses become one datatype tagged with its `Kind`; a value
 of it can only ever be a `Car` or a `Motorcycle`, so there is no way to make
 an instance of the abstract class itself.
 */
module Vehicles {

  /** The concrete product classes. */
  datatype Kind = Car | Motorcycle

  /**
   A constructed vehicle. The constructor stores `make` and `model` exactly as
   they are given and does nothing else, so the datatype's own constructor is
   the model of it: `Vehicle(k, mk, md).make == mk` and `.model == md` hold by
   definition and no log record is emitted by building a value.
   */
  datatype Vehicle = Vehicle(kind: Kind, make: string, model: string)

  /** The fixed tail of every engine-start message. */
  const EngineStarted: string := ": Engine started"

  /**
   The message of the log record `start_engine` emits. Each concrete class
   has its own `start_engine`; both format the vehicle's make, a space, its
   model and the fixed tail. The result is read back field by field: the
   make, then a single space, then the model, then the tail, with nothing
   else. The prefix a logging handler puts in front of the message when it
   writes it out is not part of it.
   */
  function EngineMessage(v: Vehicle): (msg: string)
    ensures |msg| == |v.make| + 1 + |v.model| + |EngineStarted|
    ensures msg[..|v.make|] == v.make
    ensures msg[|v.make|] == ' '
    ensures msg[|v.make| + 1..|v.make| + 1 + |v.model|] == v.model
    ensures msg[|v.make| + 1 + |v.model|..] == EngineStarted
  {
    match v.kind
    case Car => v.make + " " + v.model + EngineStarted
    case Motorcycle => v.make + " " + v.model + EngineStarted
  }

  /** Both concrete classes report the same message: the kind never shows in it. */
  lemma MessageIgnoresKind(make: string, model: string)
    ensures EngineMessage(Vehicle(Car, make, model)) == EngineMessage(Vehicle(Motorcycle, make, model))
  {
  }

  /**
   Once the make is known, the message determines the model: two vehicles
   with the same make log the same message only if their models agree.
   */
  lemma MessageDeterminesModel(v: Vehicle, w: Vehicle)
    requires v.make == w.make
    ensures EngineMessage(v) == EngineMessage(w) <==> v.model == w.model
  {
    if EngineMessage(v) == EngineMessage(w) {
      var n := |v.make| + 1;
      assert |v.model| == |w.model|;
      assert v.model == EngineMessage(v)[n..n + |v.model|];
    }
  }

  /**
   Without knowing the make, the message does not determine the vehicle: a make
   that contains a space can be split differently between make and model.
   */
  lemma MessageAmbiguous()
    ensures EngineMessage(Vehicle(Car, "Alfa Romeo", "Giulia"))
         == EngineMessage(Vehicle(Car, "Alfa", "Romeo Giulia"))
  {
  }
}
