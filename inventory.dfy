/** The list transforms the controller applies to the device inventory
    (App.tsx): the first-run seed, building a device from the add form,
    finding a device by id and attaching an analysis to it. */
module Inventory {
  import opened Types
  import Text

  /** The two example devices written on first run. */
  function SeedDevices(): (r: seq<Device>)
    ensures |r| == 2 && r[0].id == "1" && r[1].id == "2"
    ensures r[0].name == "OnePlus 7 Pro" && r[0].purchaseYear == 2019 && r[0].status == Working
    ensures r[1].name == "Dell XPS 13" && r[1].purchaseYear == 2018 && r[1].status == MajorDamage
    ensures forall d :: d in r ==> d.analysis.None?
  {
    [ Device("1", "OnePlus 7 Pro", "OnePlus", "7 Pro", 2019, Working, "smartphone", None),
      Device("2", "Dell XPS 13", "Dell", "XPS 13", 2018, MajorDamage, "laptop", None) ]
  }

  /** The ids of `ds`, in list order. */
  function Ids(ds: seq<Device>): (r: seq<string>)
    ensures |r| == |ds| && forall i :: 0 <= i < |ds| ==> r[i] == ds[i].id
  {
    if ds == [] then [] else [ds[0].id] + Ids(ds[1..])
  }

  /** No two devices share an id. */
  predicate UniqueIds(ds: seq<Device>) {
    forall i, j :: 0 <= i < j < |ds| ==> ds[i].id != ds[j].id
  }

  /** `devices.find(d => d.id === id)`: a device carrying `id`, if any
      (which one: FindByIdFirst). */
  function FindById(ds: seq<Device>, id: string): (r: Option<Device>)
    ensures r.None? <==> id !in Ids(ds)
    ensures r.Some? ==> r.value.id == id && r.value in ds
  {
    if ds == [] then None
    else if ds[0].id == id then Some(ds[0])
    else FindById(ds[1..], id)
  }

  /** `find` returns the FIRST device carrying the id. */
  lemma {:induction false} FindByIdFirst(ds: seq<Device>, id: string, k: nat)
    requires k < |ds| && ds[k].id == id
    requires forall j :: 0 <= j < k ==> ds[j].id != id
    ensures FindById(ds, id) == Some(ds[k])
  {
    if k > 0 {
      FindByIdFirst(ds[1..], id, k - 1);
    }
  }

  /** With unique ids, looking a device up by its own id finds that device. */
  lemma FindByOwnId(ds: seq<Device>, k: nat)
    requires UniqueIds(ds) && k < |ds|
    ensures FindById(ds, ds[k].id) == Some(ds[k])
  {
    FindByIdFirst(ds, ds[k].id, k);
  }

  /** `devices.map(d => d.id === id ? { ...d, analysis: a } : d)`. */
  function AttachAnalysis(ds: seq<Device>, id: string, a: DeviceAnalysis): (r: seq<Device>)
    ensures |r| == |ds|
    ensures forall i :: 0 <= i < |ds| && ds[i].id == id ==> r[i] == ds[i].(analysis := Some(a))
    ensures forall i :: 0 <= i < |ds| && ds[i].id != id ==> r[i] == ds[i]
  {
    if ds == [] then []
    else
      var d := if ds[0].id == id then ds[0].(analysis := Some(a)) else ds[0];
      [d] + AttachAnalysis(ds[1..], id, a)
  }

  /** The fields the add form may hand over (`Partial<Device>`); a field the
      form left out is `None`. */
  datatype DeviceDraft = DeviceDraft(
    brand: Option<string>,
    model: Option<string>,
    category: Option<string>,
    purchaseYear: Option<int>,
    status: Option<DeviceStatus>)

  /** `x || fallback` for a string field: a missing or empty string is falsy. */
  function OrString(x: Option<string>, fallback: string): (r: string)
    ensures x.Some? && x.value != "" ==> r == x.value
    ensures (x.None? || x.value == "") ==> r == fallback
  {
    if x.Some? && x.value != "" then x.value else fallback
  }

  /** The display name: "brand model" trimmed, or "New Device" when that is empty. */
  function DisplayName(brand: string, model: string): (r: string)
    ensures r != []
    ensures Text.IsBlank(brand) && Text.IsBlank(model) ==> r == "New Device"
    ensures !(Text.IsBlank(brand) && Text.IsBlank(model)) ==> r == Text.Trim(brand + " " + model)
  {
    Text.BlankJoin(brand, model);
    var joined := Text.Trim(brand + " " + model);
    if joined == "" then "New Device" else joined
  }

  /** The device `handleAddDevice` builds from a draft, with `freshId` standing for
      the random id; a year of 0 is falsy and takes the default too. */
  function NewDevice(draft: DeviceDraft, freshId: string): (d: Device)
    ensures d.id == freshId && d.analysis == None
    ensures d.brand == OrString(draft.brand, "") && d.model == OrString(draft.model, "")
    ensures d.category == OrString(draft.category, "smartphone")
    ensures d.purchaseYear == if draft.purchaseYear.Some? && draft.purchaseYear.value != 0
                              then draft.purchaseYear.value else 2024
    ensures d.status == if draft.status.Some? then draft.status.value else Working
    ensures d.name == DisplayName(d.brand, d.model)
  {
    var brand := OrString(draft.brand, "");
    var model := OrString(draft.model, "");
    Device(
      freshId,
      DisplayName(brand, model),
      brand,
      model,
      if draft.purchaseYear.Some? && draft.purchaseYear.value != 0 then draft.purchaseYear.value else 2024,
      if draft.status.Some? then draft.status.value else Working,
      OrString(draft.category, "smartphone"),
      None)
  }

  /** Attaching an analysis keeps every id in its place: no device is added,
      dropped or reordered. */
  lemma AttachKeepsIds(ds: seq<Device>, id: string, a: DeviceAnalysis)
    ensures Ids(AttachAnalysis(ds, id, a)) == Ids(ds)
  {
  }

  /** An analysis, once attached, is never cleared by a later attach. */
  lemma AttachNeverClears(ds: seq<Device>, id: string, a: DeviceAnalysis, i: nat)
    requires i < |ds| && ds[i].analysis.Some?
    ensures AttachAnalysis(ds, id, a)[i].analysis.Some?
  {
  }

  /** With unique ids, exactly the device at `k` gets the analysis and every
      other entry is unchanged. */
  lemma AttachExactlyOne(ds: seq<Device>, a: DeviceAnalysis, k: nat)
    requires UniqueIds(ds) && k < |ds|
    ensures var r := AttachAnalysis(ds, ds[k].id, a);
      r[k] == ds[k].(analysis := Some(a)) &&
      forall i :: 0 <= i < |ds| && i != k ==> r[i] == ds[i]
  {
  }

  /** After the attach, looking the id up again yields the device found before,
      now carrying the analysis. */
  lemma {:induction false} FindAfterAttach(ds: seq<Device>, id: string, a: DeviceAnalysis)
    requires FindById(ds, id).Some?
    ensures FindById(AttachAnalysis(ds, id, a), id) == Some(FindById(ds, id).value.(analysis := Some(a)))
  {
    if ds[0].id != id {
      FindAfterAttach(ds[1..], id, a);
      assert AttachAnalysis(ds, id, a)[1..] == AttachAnalysis(ds[1..], id, a);
    }
  }

  /** The device just added is what a lookup of its id finds, even when an older
      device happens to carry the same id. */
  lemma FindNewlyAdded(ds: seq<Device>, draft: DeviceDraft, freshId: string)
    ensures FindById([NewDevice(draft, freshId)] + ds, freshId) == Some(NewDevice(draft, freshId))
  {
  }

  /** Prepending a device with an id not yet in use keeps the ids unique. */
  lemma AddKeepsUniqueIds(ds: seq<Device>, draft: DeviceDraft, freshId: string)
    requires UniqueIds(ds) && freshId !in Ids(ds)
    ensures UniqueIds([NewDevice(draft, freshId)] + ds)
  {
    var r := [NewDevice(draft, freshId)] + ds;
    forall i, j | 0 <= i < j < |r| ensures r[i].id != r[j].id {
      if i == 0 { assert r[j].id == Ids(ds)[j - 1]; }
    }
  }

  /** The seed devices are two unanalysed devices with distinct ids. */
  lemma SeedsWellFormed()
    ensures UniqueIds(SeedDevices()) && Ids(SeedDevices()) == ["1", "2"]
    ensures forall d :: d in SeedDevices() ==> d.analysis.None?
  {
  }

  /** A brand and a model that are non-empty and carry no surrounding whitespace
      give the name "brand model". */
  lemma DisplayNameJoins(brand: string, model: string)
    requires brand != [] && !Text.IsWhitespace(brand[0])
    requires model != [] && !Text.IsWhitespace(model[|model| - 1])
    ensures DisplayName(brand, model) == brand + " " + model
  {
    var s := brand + " " + model;
    assert s[0] == brand[0] && s[|s| - 1] == model[|model| - 1];
    Text.TrimOfTrimmed(s);
  }

  /** With only the model given, the name is the model, trimmed. */
  lemma DisplayNameModelOnly(model: string)
    requires !Text.IsBlank(model)
    ensures DisplayName("", model) == Text.Trim(model)
  {
    assert "" + " " + model == " " + model;
    Text.TrimPadLeft(" ", model);
  }

  /** With only the brand given, the name is the brand, trimmed. */
  lemma DisplayNameBrandOnly(brand: string)
    requires !Text.IsBlank(brand)
    ensures DisplayName(brand, "") == Text.Trim(brand)
  {
    assert brand + " " + "" == brand + " ";
    Text.TrimPadRight(brand, " ");
  }

  /** Both parts blank gives the fallback name (a corollary of DisplayName's contract). */
  lemma DisplayNameFallback(brand: string, model: string)
    requires Text.IsBlank(brand) && Text.IsBlank(model)
    ensures DisplayName(brand, model) == "New Device"
  {
  }

  /** Adding brand "Sony", model "WH-1000", category "audio" and no status gives a
      working audio device named "Sony WH-1000". */
  lemma SonyExample(freshId: string)
    ensures var d := NewDevice(DeviceDraft(Some("Sony"), Some("WH-1000"), Some("audio"), None, None), freshId);
      d.name == "Sony WH-1000" && d.status == Working && d.category == "audio" && d.purchaseYear == 2024
  {
    var brand: string, model: string := "Sony", "WH-1000";
    assert !Text.IsWhitespace(brand[0]) && !Text.IsWhitespace(model[|model| - 1]);
    DisplayNameJoins(brand, model);
    assert brand + " " + model == "Sony WH-1000";
  }
}
