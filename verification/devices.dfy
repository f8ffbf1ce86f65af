/** Abstract Factory: a `DeviceFactory` creates a smartphone and a laptop, and
    each concrete factory sticks to one brand for both. */
module Devices {

  datatype Brand = Apple | Samsung

  /** The `Smartphone` implementations. */
  datatype Smartphone = AppleSmartphone | SamsungSmartphone

  /** The `Laptop` implementations. */
  datatype Laptop = AppleLaptop | SamsungLaptop

  /** The `DeviceFactory` implementations. */
  datatype DeviceFactory = AppleFactory | SamsungFactory

  function PhoneBrand(p: Smartphone): (b: Brand)
  {
    match p
    case AppleSmartphone => Apple
    case SamsungSmartphone => Samsung
  }

  function LaptopBrand(l: Laptop): (b: Brand)
  {
    match l
    case AppleLaptop => Apple
    case SamsungLaptop => Samsung
  }

  function FactoryBrand(f: DeviceFactory): (b: Brand)
  {
    match f
    case AppleFactory => Apple
    case SamsungFactory => Samsung
  }

  /** `createSmartphone()`: the factory's own brand of smartphone, and the only
      smartphone of that brand. */
  function CreateSmartphone(f: DeviceFactory): (p: Smartphone)
    ensures forall q: Smartphone :: q == p <==> PhoneBrand(q) == FactoryBrand(f)
  {
    match f
    case AppleFactory => AppleSmartphone
    case SamsungFactory => SamsungSmartphone
  }

  /** `createLaptop()`: the factory's own brand of laptop, and the only laptop of
      that brand. */
  function CreateLaptop(f: DeviceFactory): (l: Laptop)
    ensures forall m: Laptop :: m == l <==> LaptopBrand(m) == FactoryBrand(f)
  {
    match f
    case AppleFactory => AppleLaptop
    case SamsungFactory => SamsungLaptop
  }

  /** A factory never mixes brands: its smartphone and its laptop share a brand,
      and two factories that agree on one product kind are the same factory. */
  lemma BrandConsistency(f: DeviceFactory, g: DeviceFactory)
    ensures PhoneBrand(CreateSmartphone(f)) == LaptopBrand(CreateLaptop(f))
    ensures CreateSmartphone(f) == CreateSmartphone(g) <==> f == g
    ensures CreateLaptop(f) == CreateLaptop(g) <==> f == g
  {
  }
}
