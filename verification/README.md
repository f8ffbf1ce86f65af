# Five design-pattern skeletons, modelled in Dafny

The Java program `Main.java` shows five textbook patterns side by side. This project
models the logic underneath their print statements and proves what each pattern
promises:

- **Singleton** (`DatabaseConnection.getInstance`). The lazy holder is a two-state machine.
  Object identity is explicit: connections are numbered in order of construction, counting from 0,
  and a connection's number is its reference.
  The proofs show that any number of calls constructs one connection and returns it every time.
- **Factory Method** (`NotificationFactory.createNotification`). It maps a tag to `Email`, `Sms`
  or `None` (the Java `null`), ignoring case. `String.equalsIgnoreCase` is modelled
  character by character and proved equal to "same length, same upper-case letter at every position".
- **Abstract Factory** (`AppleFactory`, `SamsungFactory`). Each factory creates only products of its own brand.
- **Builder** (`House.HouseBuilder`, `House`, `House.toString`). The constructor sets the two
  required fields and leaves the Java defaults in the rest. Each setter changes exactly one field.
  `build()` takes a snapshot of the builder. `toString` is paired with a reader `ReadHouse`,
  and the two are proved inverse to each other in both directions for houses whose string
  fields are readable: no comma, and not the text "null".
- **Prototype** (`ShapeCache`, `Shape`, `Circle`, `Rectangle`). Shapes live on an explicit heap,
  and a reference is an index into it. `getShape` appends a field-wise copy to the heap.
  The proofs show that the copy is a new object, that the stored templates never change,
  and that a later `setId` on the copy cannot reach them.

Java `String` references may be `null`. They are modelled as `JStr = Null | Str(chars)`,
and string concatenation renders `Null` as "null", as Java does.

An unset roof is `null`, so it prints as "null".

## Model

| member | source | states |
|---|---|---|
| JavaStrings.Render | Main.java:147-148 | a `null` string field is concatenated as "null", any other string as its own characters |
| JavaStrings.CharsMatchIffSameUpper | Main.java:37-39 | the three-step per-character test of a case-insensitive comparison (equal, equal upper-cased, equal upper- then lower-cased) holds exactly when the two characters have the same upper-case form |
| JavaStrings.EqualsIgnoreCase | Main.java:37-39 | `equalsIgnoreCase` is true exactly when both strings have the same length and the same upper-case letter at every position |
| JavaStrings.SameIgnoringCaseIffUpperCaseEqual | Main.java:37-39 | two strings are equal ignoring case exactly when their upper-cased forms are equal |
| JavaStrings.UpperCaseSameIgnoringCase | Main.java:37-39 | every string equals its upper-cased form ignoring case |
| JavaStrings.RenderBool | Main.java:148 | a `boolean` is concatenated as "true" exactly when it is true and as "false" exactly when it is false |
| Singleton.InitialValid | Main.java:6 | before the first call no connection exists and `instance` is `null`, which satisfies the holder's invariant |
| Singleton.GetInstance | Main.java:10-15 | the returned reference is the stored instance and exactly one connection exists afterwards; on the first call the reference is new, and on any later call the state is unchanged and the same reference comes back |
| Singleton.CallsReturnOneInstance | Main.java:6-15 | over any number n of calls, every call returns the identical reference, the constructor has run once in total, and an already-stored instance is the one returned |
| Singleton.ConstructedOnceFromInitial | Main.java:6-15 | starting from the class's initial state, the constructor's side effect happens exactly once, however many times `getInstance` is called |
| Notifications.CreateNotification | Main.java:36-43 | the result is Email exactly when the tag equals "EMAIL" ignoring case; otherwise it is SMS exactly when the tag equals "SMS" ignoring case; otherwise it is `None` (the Java `null`) |
| Notifications.TagsDistinct | Main.java:37-39 | the two recognised tags are different even ignoring case, so no tag matches both tests |
| Notifications.CreateNotificationIff | Main.java:36-43 | the factory returns a given variant exactly for the tags that equal that variant's tag ignoring case |
| Notifications.CreateNotificationCaseInsensitive | Main.java:37-39 | a tag and its upper-cased form select the same result |
| Notifications.CreateNotificationExamples | Main.java:36-43 | sample tags: "email", "Email", "EMAIL" give Email; "SMS" and "sMs" give SMS; "fax" and "" give `None` |
| Devices.CreateSmartphone | Main.java:82-96 | each factory returns a smartphone of its own brand, and that is the only smartphone of that brand |
| Devices.CreateLaptop | Main.java:87-100 | each factory returns a laptop of its own brand, and that is the only laptop of that brand |
| Devices.BrandConsistency | Main.java:78-101 | a factory's smartphone and laptop share a brand; two factories that produce the same smartphone, or the same laptop, are the same factory |
| Houses.NewBuilder | Main.java:119-128 | the builder constructor stores the two required fields as given and leaves the roof `null` and both flags `false` |
| Houses.WithRoof | Main.java:129-132 | `withRoof` sets the roof and leaves the other four fields unchanged |
| Houses.WithGarage | Main.java:133-136 | `withGarage` sets the garage flag and leaves the other four fields unchanged |
| Houses.WithPool | Main.java:137-140 | `withPool` sets the pool flag and leaves the other four fields unchanged |
| Houses.Build | Main.java:112-118 | the built house holds exactly the builder's five current field values |
| Houses.SettersCommuteAndOverride | Main.java:129-140 | setters of different fields commute, and a later call of the same setter overrides an earlier one |
| Houses.BuildReflectsCurrentState | Main.java:141-143 | `build()` can be repeated and reflects the builder's state at each call: a setter applied after a build changes only that field of the next house |
| Houses.EveryHouseHasOneBuilder | Main.java:106-143 | every house value is reachable from the constructor through the setter chain, and two builder states that build the same house are equal |
| Houses.BuilderExamples | Main.java:119-143 | sample chains: "F", "S" with roof "Tile" and a garage builds a house without a pool; with no setter calls the roof stays `null` and both flags `false` |
| Houses.HouseToString | Main.java:146-148 | the rendering starts with "House [foundation=" and ends with "]" |
| Houses.ReadHouseOfToString | Main.java:146-148 | when no string field contains a comma or is the text "null", reading back the `toString` text gives the same house |
| Houses.ToStringOfReadHouse | Main.java:146-148 | any text that reads back as a house is exactly that house's `toString` text, and that house is readable, so the format spells each house one way |
| Houses.NullRoofAmbiguity | Main.java:146-148 | a `null` roof and the roof "null" print the same text although the houses differ, so readability is needed for the round trip |
| Houses.DriverHouse | Main.java:245-250 | the driver's builder chain yields Concrete/Wood/Shingle with a garage and no pool, and its printed text reads back as that house |
| Prototypes.ShapeType | Main.java:159-161 | `getType` returns "Circle" exactly for a Circle and "Rectangle" exactly for a Rectangle, the values their constructors store at Main.java:176 and Main.java:185 |
| Prototypes.NewShape | Main.java:174-186 | `new Circle()` or `new Rectangle()` allocates a new object of that class with a `null` id and leaves every existing object unchanged |
| Prototypes.SetId | Main.java:165-167 | `setId` changes only the id of the one object it is called on |
| Prototypes.Clone | Main.java:168-171 | `clone` allocates a new object, distinct from the original, with the original's class and id, and leaves every existing object unchanged |
| Prototypes.Put | Main.java:206 | `shapeMap.put` binds the key to the reference and keeps every other binding |
| Prototypes.LoadOne | Main.java:204-206 | creating a shape, setting its id to the key and storing it binds that key to a template of that kind and id; every other entry is unchanged |
| Prototypes.LoadCache | Main.java:203-210 | after `loadCache` the map holds a Circle with id "1" under "1" and a Rectangle with id "2" under "2"; every other entry and every existing object is unchanged |
| Prototypes.LoadCacheIdempotent | Main.java:203-210 | loading a second time stores the same templates as loading once |
| Prototypes.GetShape | Main.java:194-202 | a missing key gives `NotFound` and nothing else does; a present key gives a new object, not any stored template, equal in class and id to the template; the map and the stored templates are unchanged |
| Prototypes.CopyIsIndependent | Main.java:194-197 | setting the id of a returned copy leaves every stored template and every earlier object unchanged |
| Prototypes.TwoLookupsGiveDistinctEqualCopies | Main.java:194-197 | two lookups of the same key return two distinct objects with equal fields and the template's type |
| Prototypes.CloneChainPreservesShape | Main.java:168-171 | any number of successive clones keeps the type tag and the id of the original |
| Prototypes.LookupExamples | Main.java:254-258 | sample lookups: after `loadCache` on the initial empty map, key "1" gives a Circle, key "2" gives a Rectangle, and "99" gives `NotFound` |

## Left out

- Console output is not modelled. This covers every `System.out.println`, the bodies of `notifyUser`, `getDetails` and `draw`, and the `main` driver at Main.java:214-259. The driver's computed values appear in `Singleton.ConstructedOnceFromInitial`, `Notifications.CreateNotificationExamples`, `Houses.DriverHouse` and `Prototypes.LookupExamples`.
- Singleton.GetInstance: the constructor's log line is modelled as a count of constructor runs, not as console text.
- Thread safety of the singleton is not modelled. The Java code is unsynchronised and runs on one thread.
- JavaStrings.EqualsIgnoreCase: case folding covers the ASCII letters only. Java also folds some other characters, such as U+017F to 'S' and U+0131 to 'I'.
- Notifications.CreateNotification: a `null` tag makes the Java code throw at Main.java:37. The tag is therefore a non-null string.
- Prototypes.GetShape: a missing key makes the Java code dereference `null` at Main.java:197; the model returns `Failure(NotFound(key))` instead.
- Prototypes.GetShape: the key is a non-null string. A `null` key is never stored, so in Java it faults the same way as any other missing key.
- Prototypes.GetShape: the `CloneNotSupportedException` branch at Main.java:198-201 is not modelled. It cannot run, because `Shape` implements `Cloneable`.
- Prototypes.Clone: `HashMap` internals and the `Object.clone` mechanism are not modelled. The map is a Dafny `map`, and a clone is a field-wise copy of the class and the id.
- Houses.WithRoof, Houses.WithGarage, Houses.WithPool: a setter returns the builder's new state as a value. Java returns the same object (`this`). Builder identity is not modelled, because nothing in the code observes it beyond chaining.
- Houses.HouseToString: the exact text of the driver's house is not stated as a literal. `Houses.DriverHouse` states instead that this text reads back as the built house.
- The getter `getId` is a field read (the `id` field of `Prototypes.Shape`).
