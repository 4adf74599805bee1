/**
 The factory side of the abstract factory: one factory per market region,
 each able to build a car and a motorcycle. A factory has no state; all that
 tells the US factory from the EU one is the label it appends to the make.
 */
module Factories {
  import opened Vehicles

  datatype Option<T> = None | Some(value: T)

  /** The concrete factory classes, named by the region they build for. */
  datatype Region = US | EU

  /** The label a regional factory appends to the make it is given. */
  function Suffix(r: Region): (tag: string)
    ensures |tag| == 10
    ensures tag[..2] == " (" && tag[4..] == " Spec)"
  {
    match r
    case US => " (US Spec)"
    case EU => " (EU Spec)"
  }

  /**
   `create_car`: a car whose make is the given make followed by the region's
   label and whose model is the given model, unchanged. Any two strings are
   accepted, the empty one included.
   */
  function CreateCar(r: Region, make: string, model: string): (v: Vehicle)
    ensures v.kind == Car && v.model == model
    ensures |v.make| == |make| + |Suffix(r)|
    ensures v.make[..|make|] == make && v.make[|make|..] == Suffix(r)
  {
    Vehicle(Car, make + Suffix(r), model)
  }

  /** `create_motorcycle`: as `CreateCar`, but the product is a motorcycle. */
  function CreateMotorcycle(r: Region, make: string, model: string): (v: Vehicle)
    ensures v.kind == Motorcycle && v.model == model
    ensures |v.make| == |make| + |Suffix(r)|
    ensures v.make[..|make|] == make && v.make[|make|..] == Suffix(r)
  {
    Vehicle(Motorcycle, make + Suffix(r), model)
  }

  /**
   What each factory stores for each product: the US factory appends
   " (US Spec)" and the EU factory " (EU Spec)", to cars and motorcycles
   alike, and the model passes through unchanged.
   */
  lemma RegionalMakes(make: string, model: string)
    ensures CreateCar(US, make, model) == Vehicle(Car, make + " (US Spec)", model)
    ensures CreateMotorcycle(US, make, model) == Vehicle(Motorcycle, make + " (US Spec)", model)
    ensures CreateCar(EU, make, model) == Vehicle(Car, make + " (EU Spec)", model)
    ensures CreateMotorcycle(EU, make, model) == Vehicle(Motorcycle, make + " (EU Spec)", model)
  {
  }

  /** Whether `s` ends with `tail`. */
  predicate EndsWith(s: string, tail: string)
  {
    |tail| <= |s| && s[|s| - |tail|..] == tail
  }

  /**
   The inverse of labelling: the region and the make a factory was given,
   read back from the make it stored, or `None` for a make that carries no
   regional label.
   */
  function Unlabel(labelled: string): (origin: Option<(Region, string)>)
  {
    if EndsWith(labelled, Suffix(US)) then Some((US, labelled[..|labelled| - |Suffix(US)|]))
    else if EndsWith(labelled, Suffix(EU)) then Some((EU, labelled[..|labelled| - |Suffix(EU)|]))
    else None
  }

  /** Distinct regions have distinct labels. */
  lemma SuffixesDiffer(r1: Region, r2: Region)
    ensures Suffix(r1) == Suffix(r2) <==> r1 == r2
  {
  }

  /** A labelled make ends with the label of exactly one region. */
  lemma EndsWithOneSuffix(make: string, r: Region, other: Region)
    ensures EndsWith(make + Suffix(r), Suffix(other)) <==> other == r
  {
    var s := make + Suffix(r);
    assert s[|s| - |Suffix(r)|..] == Suffix(r);
    SuffixesDiffer(r, other);
  }

  /** Reading the label back gives the region and the make that went in. */
  lemma UnlabelLabel(r: Region, make: string)
    ensures Unlabel(make + Suffix(r)) == Some((r, make))
  {
    var s := make + Suffix(r);
    assert s[..|s| - |Suffix(r)|] == make;
    EndsWithOneSuffix(make, r, US);
    EndsWithOneSuffix(make, r, EU);
  }

  /** Whatever `Unlabel` accepts is a make some factory could have stored. */
  lemma LabelUnlabel(labelled: string)
    ensures Unlabel(labelled).Some? ==>
              labelled == Unlabel(labelled).value.1 + Suffix(Unlabel(labelled).value.0)
  {
  }

  /**
   The makes the factories can store are exactly the strings that end with a
   regional label: `Unlabel` accepts a string if and only if some region and
   some given make lead either creation operation to store it.
   */
  lemma StoredMakes(s: string, model: string)
    ensures (exists r, make :: CreateCar(r, make, model).make == s) <==> Unlabel(s).Some?
    ensures (exists r, make :: CreateMotorcycle(r, make, model).make == s) <==> Unlabel(s).Some?
  {
    if Unlabel(s).Some? {
      var (r, make) := Unlabel(s).value;
      LabelUnlabel(s);
      assert CreateCar(r, make, model).make == s;
      assert CreateMotorcycle(r, make, model).make == s;
    }
  }

  /**
   The make a factory stores always begins with the make it was given and
   ends with its region's label; this holds for every input, empty or not,
   and for both products.
   */
  lemma FactoriesKeepMake(r: Region, make: string, model: string)
    ensures make <= CreateCar(r, make, model).make
    ensures make <= CreateMotorcycle(r, make, model).make
    ensures EndsWith(CreateCar(r, make, model).make, Suffix(r))
    ensures EndsWith(CreateMotorcycle(r, make, model).make, Suffix(r))
  {
  }

  /**
   A product determines how it was made: its kind names the creation
   operation, and its make gives back the region and the make passed in.
   */
  lemma ProductRevealsOrder(r: Region, make: string, model: string)
    ensures Unlabel(CreateCar(r, make, model).make) == Some((r, make))
    ensures Unlabel(CreateMotorcycle(r, make, model).make) == Some((r, make))
  {
    UnlabelLabel(r, make);
  }

  /** Hence each creation operation is one-to-one in region, make and model. */
  lemma CreateInjective(r1: Region, make1: string, model1: string,
                        r2: Region, make2: string, model2: string)
    ensures (CreateCar(r1, make1, model1) == CreateCar(r2, make2, model2))
        <==> (r1 == r2 && make1 == make2 && model1 == model2)
    ensures (CreateMotorcycle(r1, make1, model1) == CreateMotorcycle(r2, make2, model2))
        <==> (r1 == r2 && make1 == make2 && model1 == model2)
  {
    ProductRevealsOrder(r1, make1, model1);
    ProductRevealsOrder(r2, make2, model2);
  }

  /** Cars and motorcycles never coincide, whatever the factories are given. */
  lemma CarsAreNotMotorcycles(r1: Region, make1: string, model1: string,
                              r2: Region, make2: string, model2: string)
    ensures CreateCar(r1, make1, model1) != CreateMotorcycle(r2, make2, model2)
  {
  }

  /**
   Building the same product with the same inputs in another region changes
   the make's label and nothing else: the kind, the model and the make's
   leading part are the same, and the makes differ exactly when the regions
   do.
   */
  lemma SwitchingRegion(r1: Region, r2: Region, make: string, model: string)
    ensures CreateCar(r1, make, model).kind == CreateCar(r2, make, model).kind
    ensures CreateCar(r1, make, model).model == CreateCar(r2, make, model).model
    ensures CreateCar(r1, make, model).make[..|make|] == CreateCar(r2, make, model).make[..|make|]
    ensures CreateCar(r1, make, model).make == CreateCar(r2, make, model).make <==> r1 == r2
    ensures CreateMotorcycle(r1, make, model).kind == CreateMotorcycle(r2, make, model).kind
    ensures CreateMotorcycle(r1, make, model).model == CreateMotorcycle(r2, make, model).model
    ensures CreateMotorcycle(r1, make, model).make[..|make|] == CreateMotorcycle(r2, make, model).make[..|make|]
    ensures CreateMotorcycle(r1, make, model).make == CreateMotorcycle(r2, make, model).make <==> r1 == r2
  {
    ProductRevealsOrder(r1, make, model);
    ProductRevealsOrder(r2, make, model);
  }
}
