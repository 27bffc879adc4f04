/** Domain entities of the inventory (types.ts) and the constants the
    controller copies from (constants.tsx). */
module Types {

  /** An optional value: `undefined`/`null` in the source is `None`. */
  datatype Option<+T> = None | Some(value: T)

  /** The four conditions a device can be reported in. */
  datatype DeviceStatus = Working | MinorIssues | MajorDamage | Dead

  /** What the analysis advises doing with a device. */
  datatype RecommendationType = Repair | Resell | Recycle

  /** Which parts of a device can be recycled, are hazardous or can be repaired;
      each list is in display order and may be empty. */
  datatype ComponentBreakdown = ComponentBreakdown(
    recyclable: seq<string>,
    hazardous: seq<string>,
    repairable: seq<string>)

  /** The result of one analysis, as types.ts declares it; the controller stores
      it on the device as received and never inspects it. */
  datatype DeviceAnalysis = DeviceAnalysis(
    sustainabilityScore: int,
    recommendation: RecommendationType,
    lifecycleStage: string,
    breakdown: ComponentBreakdown,
    indiaSpecificSteps: seq<string>,
    educationalInsight: string)

  /** One entry of the device inventory; `analysis` is absent until computed. */
  datatype Device = Device(
    id: string,
    name: string,
    brand: string,
    model: string,
    purchaseYear: int,
    status: DeviceStatus,
    category: string,
    analysis: Option<DeviceAnalysis>)

  /** Impact statistics; the two quantities in kilograms are only ever copied. */
  datatype Stats = Stats(co2Saved: real, eWastePrevented: real, score: int)

  datatype User = User(id: string, name: string, email: string, avatar: string, stats: Stats)

  /** The profile every session starts from (constants.tsx). */
  const MockUser: User := User(
    "u1",
    "Aravind Sharma",
    "aravind.s@example.com",
    "https://picsum.photos/seed/user123/150/150",
    Stats(124.5, 12.8, 850))
}
