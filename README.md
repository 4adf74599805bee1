# Abstract Factory: vehicles and regional factories

A Dafny model of a small demonstration of the Abstract Factory pattern. There
are two products, a car and a motorcycle. Each holds a `make` and a `model`
and can start its engine, which emits a log record whose message is
`"<make> <model>: Engine started"`. There are two factories, one for the US
market and one for the EU market. Each can create either product and appends
its region's label (`" (US Spec)"` or `" (EU Spec)"`) to the make it is given.
The program's `main` builds a US car and an EU motorcycle and starts both
engines; `Demo.RunScenario` models it.

The program is written as classes, but no object changes after it is
constructed: every method is straight-line code, and no field is assigned
after construction. So the model is pure,
and its vehicles are immutable values compared by their contents:

- `vehicles.dfy` (module `Vehicles`): `Kind` (car or motorcycle) and the
  `Vehicle` datatype. The datatype's constructor is the model of
  `Vehicle.__init__`: it stores the make and the model exactly as given and
  emits no log record. `EngineMessage` is the message of the log record
  `start_engine` emits, returned as a string.
- `factories.dfy` (module `Factories`): `Region` (one value per concrete
  factory), the regional `Suffix`, and `CreateCar` and `CreateMotorcycle`.
  It also defines `Unlabel`, which reads the region and the original make
  back from a stored make. `Unlabel` is the inverse that the factory lemmas
  are stated against.
- `demo.dfy` (module `Demo`): the messages products of each factory log,
  and the scenario in `main` as the sequence of messages it logs.

## Model

| member | source | states |
|---|---|---|
| `Vehicles.EngineMessage` | task_01.py:19-26 | The logged message is the vehicle's make, one space, its model and `": Engine started"`, read back position by position; both concrete classes produce it |
| `Vehicles.MessageIgnoresKind` | task_01.py:19-26 | A car and a motorcycle with the same make and model log the same message |
| `Vehicles.MessageDeterminesModel` | task_01.py:21 | For two vehicles with the same make, the messages are equal if and only if the models are equal |
| `Vehicles.MessageAmbiguous` | task_01.py:21 | Without the make, the message does not identify the vehicle: ("Alfa Romeo", "Giulia") and ("Alfa", "Romeo Giulia") log the same message |
| `Factories.Suffix` | task_01.py:39-52 | Each region's label is ten characters long, starts with `" ("` and ends with `" Spec)"` |
| `Factories.CreateCar` | task_01.py:40-49 | `create_car` of either factory returns a car with the model unchanged, and a make made of the given make followed by the region's label; any strings are accepted |
| `Factories.CreateMotorcycle` | task_01.py:43-52 | `create_motorcycle` of either factory returns a motorcycle with the model unchanged, and a make made of the given make followed by the region's label; any strings are accepted |
| `Factories.RegionalMakes` | task_01.py:39-52 | The US factory stores `make + " (US Spec)"` and the EU factory `make + " (EU Spec)"`, for cars and motorcycles alike, with the model unchanged |
| `Factories.SuffixesDiffer` | task_01.py:39-52 | Two regions' labels are equal if and only if the regions are equal |
| `Factories.EndsWithOneSuffix` | task_01.py:39-52 | A labelled make ends with another region's label if and only if that region is the one that labelled it |
| `Factories.UnlabelLabel` | task_01.py:39-52 | Reading a labelled make back gives exactly the region and the make that went in |
| `Factories.LabelUnlabel` | task_01.py:39-52 | Any string that `Unlabel` accepts is the recovered make followed by the recovered region's label |
| `Factories.StoredMakes` | task_01.py:39-52 | A string is the stored make of some car, and likewise of some motorcycle, if and only if it ends with a regional label, which is the same as `Unlabel` accepting it |
| `Factories.FactoriesKeepMake` | task_01.py:39-52 | For every input, including empty strings, and for both products, the stored make starts with the given make and ends with the region's label |
| `Factories.ProductRevealsOrder` | task_01.py:39-52 | The product of either creation operation gives back the region and the make that were passed in |
| `Factories.CreateInjective` | task_01.py:39-52 | Two calls of the same creation operation give vehicles with the same kind, make and model if and only if their region, make and model are equal |
| `Factories.CarsAreNotMotorcycles` | task_01.py:39-52 | No output of `create_car` equals any output of `create_motorcycle` |
| `Factories.SwitchingRegion` | task_01.py:39-52 | With the same inputs, switching the factory keeps the kind, the model and the leading make, and changes the stored make if and only if the region changes |
| `Demo.FactoryProductLine` | task_01.py:19-52 | Any product of any factory logs the message made of the given make, the region's label, a space, the given model and `": Engine started"` |
| `Demo.UsCarLine` | task_01.py:19-44 | For all strings, a car from the US factory logs the message `make + " (US Spec) " + model + ": Engine started"` |
| `Demo.EuMotorcycleLine` | task_01.py:24-52 | For all strings, a motorcycle from the EU factory logs the message `make + " (EU Spec) " + model + ": Engine started"` |
| `Demo.FordMustangLine` | task_01.py:59-60 | The US car built from ("Ford", "Mustang") logs the message `Ford (US Spec) Mustang: Engine started` |
| `Demo.DucatiPanigaleLine` | task_01.py:62-63 | The EU motorcycle built from ("Ducati", "Panigale") logs the message `Ducati (EU Spec) Panigale: Engine started` |
| `Demo.RunScenario` | task_01.py:55-63 | `main` emits exactly two log records, in this order: the Ford message, then the Ducati message. Building a vehicle emits none |

## Left out

- Logging configuration and emission (task_01.py:5-6 and the `logger.info`
  calls at lines 21 and 26). They are process-wide I/O. A log record is
  modelled by its message only, and the scenario by the list of its
  messages.
- The handler that `logging.basicConfig` installs (task_01.py:5) writes each
  record to standard error with its default format, so the written line is
  `INFO:__main__:` followed by the message. Neither that prefix nor the
  stream is modelled.
- Object identity. Vehicles are modelled as immutable values compared by
  kind, make and model. In the program each `create_*` call (task_01.py:41,
  44, 49, 52) returns a fresh object, and `Vehicle` (task_01.py:9-12)
  defines no `__eq__`, so Python's `==` on vehicles is identity: two
  vehicles from separate calls are never equal there, whatever their
  fields.
- The `TypeError` that Python raises when an abstract class is instantiated
  (task_01.py:9, 14-16, 29-36). It is class machinery. Here the closed
  datatypes `Kind` and `Region` have no value for an abstract vehicle or
  factory, so such an instance cannot be expressed at all.
- The `Type[Vehicle]` return annotations (task_01.py:31, 35, 40, 43, 48, 51)
  have no runtime effect. The code returns instances, not classes, and so do
  the model's creation functions.
- The `if __name__ == "__main__"` guard (task_01.py:66-67) is entry-point
  plumbing. Only what `main` computes is modelled.
- Adding a new region or vehicle kind without touching the existing ones.
  The model's datatypes are closed. Adding a region takes a new constructor
  of `Region`, a new arm of `Suffix` and a new arm of `Unlabel`, which
  checks each region's label in turn. The new label must keep the shape
  that `Suffix` promises, ten characters of the form `" (XX Spec)"`, with a
  two-letter code that no other region uses. The US and EU arms stay the
  same.
