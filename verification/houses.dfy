/** Builder: `House.HouseBuilder` collects two required and three optional
    fields, `build()` snapshots them into a `House`, and `House.toString`
    renders a house in a fixed format.

    The builder is modelled as a value: a setter returns the builder's new
    state, which in Java is the same object (`return this`), so a chain of
    setters is a chain of function applications. */
module Houses {
  import opened Wrappers
  import opened JavaStrings

  /** The five private fields of `House`. */
  datatype House = House(foundation: JStr, structure: JStr, roof: JStr, hasGarage: bool, hasPool: bool)

  /** The five private fields of `House.HouseBuilder`. */
  datatype HouseBuilder = HouseBuilder(foundation: JStr, structure: JStr, roof: JStr, hasGarage: bool, hasPool: bool)

  /** `new HouseBuilder(foundation, structure)`: the required fields as given,
      the optional ones at their Java defaults (`null`, `false`, `false`). */
  function NewBuilder(foundation: JStr, structure: JStr): (b: HouseBuilder)
    ensures b.foundation == foundation && b.structure == structure
    ensures b.roof == Null && !b.hasGarage && !b.hasPool
  {
    HouseBuilder(foundation, structure, Null, false, false)
  }

  /** `withRoof(roof)`: sets the roof and leaves the other four fields alone. */
  function WithRoof(b: HouseBuilder, roof: JStr): (b': HouseBuilder)
    ensures b'.roof == roof
    ensures b'.foundation == b.foundation && b'.structure == b.structure
    ensures b'.hasGarage == b.hasGarage && b'.hasPool == b.hasPool
  {
    b.(roof := roof)
  }

  /** `withGarage(hasGarage)`: sets the garage flag and nothing else. */
  function WithGarage(b: HouseBuilder, hasGarage: bool): (b': HouseBuilder)
    ensures b'.hasGarage == hasGarage
    ensures b'.foundation == b.foundation && b'.structure == b.structure
    ensures b'.roof == b.roof && b'.hasPool == b.hasPool
  {
    b.(hasGarage := hasGarage)
  }

  /** `withPool(hasPool)`: sets the pool flag and nothing else. */
  function WithPool(b: HouseBuilder, hasPool: bool): (b': HouseBuilder)
    ensures b'.hasPool == hasPool
    ensures b'.foundation == b.foundation && b'.structure == b.structure
    ensures b'.roof == b.roof && b'.hasGarage == b.hasGarage
  {
    b.(hasPool := hasPool)
  }

  /** `build()`: a `House` holding the builder's current five fields. */
  function Build(b: HouseBuilder): (h: House)
    ensures h.foundation == b.foundation && h.structure == b.structure
    ensures h.roof == b.roof && h.hasGarage == b.hasGarage && h.hasPool == b.hasPool
  {
    House(b.foundation, b.structure, b.roof, b.hasGarage, b.hasPool)
  }

  /** The setters touch disjoint fields, so their order does not matter, and a
      later call of the same setter overrides an earlier one. */
  lemma SettersCommuteAndOverride(b: HouseBuilder, r: JStr, r': JStr, g: bool, g': bool, p: bool, p': bool)
    ensures WithGarage(WithRoof(b, r), g) == WithRoof(WithGarage(b, g), r)
    ensures WithPool(WithRoof(b, r), p) == WithRoof(WithPool(b, p), r)
    ensures WithPool(WithGarage(b, g), p) == WithGarage(WithPool(b, p), g)
    ensures WithRoof(WithRoof(b, r), r') == WithRoof(b, r')
    ensures WithGarage(WithGarage(b, g), g') == WithGarage(b, g')
    ensures WithPool(WithPool(b, p), p') == WithPool(b, p')
  {
  }

  /** `build()` is repeatable and reflects the builder's state at the time of
      the call: a setter applied after a build changes only that field of the
      next house. A house already built keeps its value because houses are
      values, not references to the builder. */
  lemma BuildReflectsCurrentState(b: HouseBuilder, r: JStr, g: bool, p: bool)
    ensures Build(WithRoof(b, r)) == Build(b).(roof := r)
    ensures Build(WithGarage(b, g)) == Build(b).(hasGarage := g)
    ensures Build(WithPool(b, p)) == Build(b).(hasPool := p)
  {
  }

  /** Every house value is the result of exactly one builder state, and the
      full setter chain reaches it from the two-argument constructor. */
  lemma EveryHouseHasOneBuilder(h: House, b1: HouseBuilder, b2: HouseBuilder)
    ensures Build(WithPool(WithGarage(WithRoof(NewBuilder(h.foundation, h.structure), h.roof), h.hasGarage), h.hasPool)) == h
    ensures Build(b1) == Build(b2) ==> b1 == b2
  {
  }

  /** Sample builder chains: optional fields that are never set keep their
      defaults in the house. */
  lemma BuilderExamples()
    ensures Build(WithGarage(WithRoof(NewBuilder(Str("F"), Str("S")), Str("Tile")), true))
         == House(Str("F"), Str("S"), Str("Tile"), true, false)
    ensures Build(NewBuilder(Str("F"), Str("S"))) == House(Str("F"), Str("S"), Null, false, false)
  {
  }

  // ----- House.toString -----

  const FoundationLabel := "House [foundation="
  const StructureLabel := ", structure="
  const RoofLabel := ", roof="
  const GarageLabel := ", hasGarage="
  const PoolLabel := ", hasPool="
  const Closing := "]"

  /** One `key=value` piece of the rendering followed by the rest of it. */
  function Segment(key: string, value: string, rest: string): (s: string)
  {
    key + value + rest
  }

  /** `House.toString()`: the five fields after their labels, in declaration
      order, inside "House [" and "]". A `null` string field renders as
      "null". */
  function HouseToString(h: House): (s: string)
    ensures FoundationLabel <= s && s[|s| - 1] == ']'
  {
    Segment(FoundationLabel, Render(h.foundation),
      Segment(StructureLabel, Render(h.structure),
        Segment(RoofLabel, Render(h.roof),
          Segment(GarageLabel, RenderBool(h.hasGarage),
            Segment(PoolLabel, RenderBool(h.hasPool), Closing)))))
  }

  /** A string field whose rendering can be read back unambiguously: not the
      text "null" (which a `null` field also prints) and free of the comma that
      separates the fields. */
  predicate Readable(x: JStr)
  {
    x.Str? ==> x.chars != "null" && ',' !in x.chars
  }

  predicate ReadableHouse(h: House)
  {
    Readable(h.foundation) && Readable(h.structure) && Readable(h.roof)
  }

  /** The position of the first comma of `s`, or `|s|` when there is none. */
  function FirstComma(s: string): (i: nat)
    ensures i <= |s|
    ensures forall j :: 0 <= j < i ==> s[j] != ','
    ensures i < |s| ==> s[i] == ','
  {
    if |s| == 0 then 0
    else if s[0] == ',' then 0
    else 1 + FirstComma(s[1..])
  }

  /** Reads `key`, then the text up to the next comma; returns that text and
      the remainder, which starts at the comma. */
  function ReadField(s: string, key: string): (r: Option<(string, string)>)
    ensures r.Some? ==> s == key + r.value.0 + r.value.1
    ensures r.Some? ==> ',' !in r.value.0 && |r.value.1| > 0 && r.value.1[0] == ','
    ensures r.None? ==> !(key <= s) || ',' !in s[|key|..]
  {
    if key <= s then
      var t := s[|key|..];
      var i := FirstComma(t);
      if i < |t| then
        assert s == key + t[..i] + t[i..];
        Some((t[..i], t[i..]))
      else None
    else None
  }

  /** Reads back a rendered string field: "null" stands for `null`. */
  function ReadJStr(v: string): (x: JStr)
    ensures Render(x) == v
    ensures ',' !in v ==> Readable(x)
  {
    if v == "null" then Null else Str(v)
  }

  /** Reads back a rendered boolean. */
  function ReadBool(v: string): (r: Option<bool>)
    ensures r.Some? ==> RenderBool(r.value) == v
    ensures v == RenderBool(true) ==> r == Some(true)
    ensures v == RenderBool(false) ==> r == Some(false)
  {
    if v == "true" then Some(true)
    else if v == "false" then Some(false)
    else None
  }

  /** Reads the last piece, `", hasPool=" + value + "]"`. */
  function ReadLast(s: string): (r: Option<bool>)
    ensures r.Some? ==> s == Segment(PoolLabel, RenderBool(r.value), Closing)
  {
    if PoolLabel <= s && |s| > |PoolLabel| && s[|s| - 1] == ']' then
      var v := s[|PoolLabel|..|s| - 1];
      assert s == Segment(PoolLabel, v, Closing);
      ReadBool(v)
    else None
  }

  /** Reads `", hasGarage=" + g + ", hasPool=" + p + "]"`. */
  function ReadFlags(s: string): (r: Option<(bool, bool)>)
    ensures r.Some? ==> s == Segment(GarageLabel, RenderBool(r.value.0), Segment(PoolLabel, RenderBool(r.value.1), Closing))
  {
    match ReadField(s, GarageLabel)
    case None => None
    case Some((g, rest)) =>
      match (ReadBool(g), ReadLast(rest))
      case (Some(garage), Some(pool)) => Some((garage, pool))
      case _ => None
  }

  /** Reads `", roof=" + roof` and the flags after it. */
  function ReadFromRoof(s: string): (r: Option<(JStr, bool, bool)>)
    ensures r.Some? ==> Readable(r.value.0)
    ensures r.Some? ==> s == Segment(RoofLabel, Render(r.value.0),
      Segment(GarageLabel, RenderBool(r.value.1), Segment(PoolLabel, RenderBool(r.value.2), Closing)))
  {
    match ReadField(s, RoofLabel)
    case None => None
    case Some((roof, rest)) =>
      match ReadFlags(rest)
      case None => None
      case Some((garage, pool)) => Some((ReadJStr(roof), garage, pool))
  }

  /** Reads `", structure=" + structure` and everything after it. */
  function ReadFromStructure(s: string): (r: Option<(JStr, JStr, bool, bool)>)
    ensures r.Some? ==> Readable(r.value.0) && Readable(r.value.1)
    ensures r.Some? ==> s == Segment(StructureLabel, Render(r.value.0),
      Segment(RoofLabel, Render(r.value.1),
        Segment(GarageLabel, RenderBool(r.value.2), Segment(PoolLabel, RenderBool(r.value.3), Closing))))
  {
    match ReadField(s, StructureLabel)
    case None => None
    case Some((structure, rest)) =>
      match ReadFromRoof(rest)
      case None => None
      case Some((roof, garage, pool)) => Some((ReadJStr(structure), roof, garage, pool))
  }

  /** Reads a `toString` rendering back into a house, or `None` when the text is
      not in that format. */
  function ReadHouse(s: string): (r: Option<House>)
  {
    match ReadField(s, FoundationLabel)
    case None => None
    case Some((foundation, rest)) =>
      match ReadFromStructure(rest)
      case None => None
      case Some((structure, roof, garage, pool)) =>
        Some(House(ReadJStr(foundation), structure, roof, garage, pool))
  }

  /** `ReadField` recovers a comma-free value written after its key. */
  lemma ReadFieldOfWritten(key: string, v: string, rest: string)
    requires ',' !in v
    requires |rest| > 0 && rest[0] == ','
    ensures ReadField(Segment(key, v, rest), key) == Some((v, rest))
  {
    var s := Segment(key, v, rest);
    assert key <= s;
    var t := s[|key|..];
    assert t == v + rest;
    assert t[|v|] == ',';
    assert FirstComma(t) == |v|;
  }

  /** `ReadLast` recovers the pool flag from the last piece. */
  lemma ReadLastOfWritten(pool: bool)
    ensures ReadLast(Segment(PoolLabel, RenderBool(pool), Closing)) == Some(pool)
  {
  }

  lemma ReadFlagsOfWritten(garage: bool, pool: bool)
    ensures ReadFlags(Segment(GarageLabel, RenderBool(garage), Segment(PoolLabel, RenderBool(pool), Closing)))
         == Some((garage, pool))
  {
    ReadFieldOfWritten(GarageLabel, RenderBool(garage), Segment(PoolLabel, RenderBool(pool), Closing));
    ReadLastOfWritten(pool);
  }

  lemma ReadFromRoofOfWritten(roof: JStr, garage: bool, pool: bool)
    requires Readable(roof)
    ensures ReadFromRoof(Segment(RoofLabel, Render(roof),
      Segment(GarageLabel, RenderBool(garage), Segment(PoolLabel, RenderBool(pool), Closing))))
         == Some((roof, garage, pool))
  {
    var rest := Segment(GarageLabel, RenderBool(garage), Segment(PoolLabel, RenderBool(pool), Closing));
    ReadFieldOfWritten(RoofLabel, Render(roof), rest);
    ReadFlagsOfWritten(garage, pool);
  }

  lemma ReadFromStructureOfWritten(structure: JStr, roof: JStr, garage: bool, pool: bool)
    requires Readable(structure) && Readable(roof)
    ensures ReadFromStructure(Segment(StructureLabel, Render(structure), Segment(RoofLabel, Render(roof),
      Segment(GarageLabel, RenderBool(garage), Segment(PoolLabel, RenderBool(pool), Closing)))))
         == Some((structure, roof, garage, pool))
  {
    var rest := Segment(RoofLabel, Render(roof),
      Segment(GarageLabel, RenderBool(garage), Segment(PoolLabel, RenderBool(pool), Closing)));
    ReadFieldOfWritten(StructureLabel, Render(structure), rest);
    ReadFromRoofOfWritten(roof, garage, pool);
  }

  /** `toString` followed by reading back gives the house again, provided its
      string fields are readable. */
  lemma ReadHouseOfToString(h: House)
    requires ReadableHouse(h)
    ensures ReadHouse(HouseToString(h)) == Some(h)
  {
    var rest := Segment(StructureLabel, Render(h.structure), Segment(RoofLabel, Render(h.roof),
      Segment(GarageLabel, RenderBool(h.hasGarage), Segment(PoolLabel, RenderBool(h.hasPool), Closing))));
    assert HouseToString(h) == Segment(FoundationLabel, Render(h.foundation), rest);
    ReadFieldOfWritten(FoundationLabel, Render(h.foundation), rest);
    assert ReadField(HouseToString(h), FoundationLabel) == Some((Render(h.foundation), rest));
    ReadFromStructureOfWritten(h.structure, h.roof, h.hasGarage, h.hasPool);
    assert ReadFromStructure(rest) == Some((h.structure, h.roof, h.hasGarage, h.hasPool));
    assert ReadJStr(Render(h.foundation)) == h.foundation;
  }

  /** Conversely, any text that reads back as a house is exactly that house's
      `toString`, and the house is readable: the format has one spelling per
      house. */
  lemma ToStringOfReadHouse(s: string)
    ensures ReadHouse(s).Some? ==> HouseToString(ReadHouse(s).value) == s
    ensures ReadHouse(s).Some? ==> ReadableHouse(ReadHouse(s).value)
  {
  }

  /** Why readability is needed: a `null` roof and the roof "null" print alike. */
  lemma NullRoofAmbiguity(h: House)
    ensures HouseToString(h.(roof := Null)) == HouseToString(h.(roof := Str("null")))
    ensures h.(roof := Null) != h.(roof := Str("null"))
  {
  }

  /** The house the demonstration driver builds, and the fact that its printed
      form reads back as that house. */
  lemma DriverHouse()
    ensures
      var h := Build(WithPool(WithGarage(WithRoof(NewBuilder(Str("Concrete"), Str("Wood")), Str("Shingle")), true), false));
      && h == House(Str("Concrete"), Str("Wood"), Str("Shingle"), true, false)
      && ReadHouse(HouseToString(h)) == Some(h)
  {
    var h := House(Str("Concrete"), Str("Wood"), Str("Shingle"), true, false);
    assert "Concrete"[0] == 'C' && "Wood"[0] == 'W' && "Shingle"[0] == 'S';
    ReadHouseOfToString(h);
  }
}
