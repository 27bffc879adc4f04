/** The device-inventory and session controller of App.tsx: the component's state
    fields, the handlers that change them, and the local-storage writes that
    follow every change. */
module Controller {
  import opened Types
  import opened Inventory
  import opened Session
  import opened Store

  /** What the analysis service answered: an analysis, or a failure (a network
      error, a malformed reply, a parse error). */
  datatype AnalysisOutcome = Success(analysis: DeviceAnalysis) | Failure

  class App {
    var isRegistered: bool
    var activeTab: string
    var user: User
    var devices: seq<Device>
    var showAddModal: bool
    /** The device whose analysis is in flight; its card shows a spinner. */
    var analyzingId: Option<string>
    /** The device whose analysis is on screen. */
    var viewingAnalysis: Option<string>
    /** The browser's local storage. */
    const store: Storage

    /** Storage mirrors memory: the stored device list is the in-memory one, a stored
        profile is the in-memory one, a registered session has a stored profile, and
        no analysis is left in flight between handlers. */
    ghost predicate Valid()
      reads this, store
    {
      store.devices == Some(devices)
      && (store.user.Some? ==> store.user.value == user)
      && (isRegistered ==> store.user.Some?)
      && analyzingId == None
    }

    /** The first render and the load effect: the initial state, then a stored profile
        opens the session, a stored device list is taken as it is, and a missing one
        is replaced by the two seed devices, which are written back at once. */
    constructor Mount(store: Storage)
      modifies store
      ensures this.store == store && Valid()
      ensures activeTab == "dashboard" && !showAddModal && viewingAnalysis == None
      ensures old(store.user).Some? ==> isRegistered && user == old(store.user).value
      ensures old(store.user).None? ==> !isRegistered && user == MockUser
      ensures store.user == old(store.user)
      ensures old(store.devices).Some? ==> devices == old(store.devices).value && store.devices == old(store.devices)
      ensures old(store.devices).None? ==> devices == SeedDevices() && store.devices == Some(SeedDevices())
    {
      isRegistered := false;
      activeTab := "dashboard";
      user := MockUser;
      devices := [];
      showAddModal := false;
      analyzingId := None;
      viewingAnalysis := None;
      this.store := store;
      new;
      var savedUser := store.user;
      if savedUser.Some? {
        user := savedUser.value;
        isRegistered := true;
      }
      var savedDevices := store.devices;
      if savedDevices.Some? {
        devices := savedDevices.value;
      } else {
        var initial := SeedDevices();
        devices := initial;
        store.SetDevices(initial);
      }
    }

    /** `handleRegister`: the mock profile under `name` with the new id `freshId`
        becomes the user, the session opens and the profile is stored. The device
        list is left as it is. */
    method Register(name: string, location: string, freshId: string)
      requires name != "" && location != ""
      requires Valid()
      modifies this, store
      ensures Valid()
      ensures user == RegisteredUser(name, freshId) && isRegistered
      ensures store.user == Some(user) && store.devices == old(store.devices)
      ensures devices == old(devices) && activeTab == old(activeTab)
      ensures showAddModal == old(showAddModal) && viewingAnalysis == old(viewingAnalysis)
    {
      var newUser := RegisteredUser(name, freshId);
      user := newUser;
      isRegistered := true;
      store.SetUser(newUser);
    }

    /** `handleLogout`: the stored profile is removed, the session closes, the
        analysis view closes and the dashboard tab is selected. The device list, in
        memory and in storage, is untouched. */
    method Logout()
      requires Valid()
      modifies this, store
      ensures Valid()
      ensures store.user == None && store.devices == old(store.devices)
      ensures !isRegistered && viewingAnalysis == None && activeTab == "dashboard"
      ensures devices == old(devices) && user == old(user) && showAddModal == old(showAddModal)
    {
      store.RemoveUser();
      isRegistered := false;
      viewingAnalysis := None;
      activeTab := "dashboard";
    }

    /** `handleAddDevice`: the device built from the draft is put in front of the
        list, the new list is stored and the add form closes. */
    method AddDevice(draft: DeviceDraft, freshId: string)
      requires Valid()
      modifies this, store
      ensures Valid()
      ensures devices == [NewDevice(draft, freshId)] + old(devices)
      ensures store.devices == Some(devices) && store.user == old(store.user)
      ensures !showAddModal
      ensures user == old(user) && isRegistered == old(isRegistered)
      ensures activeTab == old(activeTab) && viewingAnalysis == old(viewingAnalysis)
    {
      var newDevice := NewDevice(draft, freshId);
      var updated := [newDevice] + devices;
      devices := updated;
      store.SetDevices(updated);
      showAddModal := false;
    }

    /** `handleAnalyze(id)`, with the service's answer as `outcome`. An unknown id
        changes nothing. A device already analysed is only shown again. Otherwise
        the device is handed to the service (`sent`); on success the analysis is
        attached to the devices with that id, the score gains the award, both
        snapshots are stored and the analysis is shown; on failure a notice is
        raised (`alerted`) and nothing else changes. Either way no analysis is left
        in flight. */
    method Analyze(id: string, outcome: AnalysisOutcome) returns (sent: Option<Device>, alerted: bool)
      requires Valid()
      modifies this, store
      ensures Valid()
      ensures isRegistered == old(isRegistered) && activeTab == old(activeTab)
      ensures showAddModal == old(showAddModal)
      ensures FindById(old(devices), id).None? ==>
        sent == None && !alerted && unchanged(this) && unchanged(store)
      ensures FindById(old(devices), id).Some? && FindById(old(devices), id).value.analysis.Some? ==>
        sent == None && !alerted && viewingAnalysis == Some(id)
        && devices == old(devices) && user == old(user) && unchanged(store)
      ensures FindById(old(devices), id).Some? && FindById(old(devices), id).value.analysis.None? ==>
        sent == FindById(old(devices), id)
      ensures sent.Some? && outcome.Success? ==>
        !alerted && viewingAnalysis == Some(id)
        && devices == AttachAnalysis(old(devices), id, outcome.analysis)
        && user == AwardAnalysis(old(user))
        && store.devices == Some(devices) && store.user == Some(user)
      ensures sent.Some? && outcome.Failure? ==>
        alerted && viewingAnalysis == old(viewingAnalysis)
        && devices == old(devices) && user == old(user) && unchanged(store)
    {
      sent, alerted := None, false;
      var device := FindById(devices, id);
      if device.None? {
        return;
      }
      if device.value.analysis.Some? {
        viewingAnalysis := Some(id);
        return;
      }
      analyzingId := Some(id);
      sent := device;
      if outcome.Success? {
        Complete(id, outcome.analysis);
      } else {
        alerted := true;
      }
      analyzingId := None;
    }

    /** The success branch of `handleAnalyze`: attach, store the list, show the
        analysis, award the score and store the profile. */
    method Complete(id: string, result: DeviceAnalysis)
      modifies this, store
      ensures devices == AttachAnalysis(old(devices), id, result) && user == AwardAnalysis(old(user))
      ensures store.devices == Some(devices) && store.user == Some(user)
      ensures viewingAnalysis == Some(id) && analyzingId == old(analyzingId)
      ensures isRegistered == old(isRegistered) && activeTab == old(activeTab)
      ensures showAddModal == old(showAddModal)
    {
      var updatedDevices := AttachAnalysis(devices, id, result);
      devices := updatedDevices;
      store.SetDevices(updatedDevices);
      viewingAnalysis := Some(id);
      var updatedUser := AwardAnalysis(user);
      user := updatedUser;
      store.SetUser(updatedUser);
    }
  }

  /** First run, then register as "Aravind" from "Pune", then sign out: the seeds
      are stored, the stored profile has the entered name and the mock score, and
      after sign-out the session is closed on the dashboard with the stored device
      list untouched. */
  method RegisterThenLogout(freshId: string)
    returns (registered: bool, storedName: string, storedScore: int,
             registeredAfter: bool, tab: string, storedDevices: Option<seq<Device>>)
    ensures registered && storedName == "Aravind" && storedScore == 850
    ensures !registeredAfter && tab == "dashboard" && storedDevices == Some(SeedDevices())
  {
    var store := new Storage(None, None);
    var app := new App.Mount(store);
    app.Register("Aravind", "Pune", freshId);
    registered, storedName, storedScore := app.isRegistered, store.user.value.name, store.user.value.stats.score;
    app.Logout();
    registeredAfter, tab, storedDevices := app.isRegistered, app.activeTab, store.devices;
  }

  /** Analysing the seed phone twice: the first trigger sends it to the service and
      earns the award; the second only shows the stored result. */
  method AnalyzeTwice(a: DeviceAnalysis, b: DeviceAnalysis, freshId: string)
    returns (firstSent: Option<Device>, secondSent: Option<Device>, score: int, phone: Device)
    ensures firstSent == Some(SeedDevices()[0]) && secondSent == None
    ensures score == 850 + 15
    ensures phone == SeedDevices()[0].(analysis := Some(a))
  {
    var store := new Storage(None, None);
    var app := new App.Mount(store);
    app.Register("Aravind", "Pune", freshId);
    SeedsWellFormed();
    FindByOwnId(SeedDevices(), 0);
    var alerted;
    firstSent, alerted := app.Analyze("1", Success(a));
    FindAfterAttach(SeedDevices(), "1", a);
    secondSent, alerted := app.Analyze("1", Success(b));
    score := app.user.stats.score;
    phone := app.devices[0];
  }

  /** A failed analysis of the seed laptop leaves it unanalysed and free to be
      analysed again, and the retry goes to the service. */
  method RetryAfterFailure(a: DeviceAnalysis, freshId: string)
    returns (alerted: bool, retrySent: Option<Device>, laptop: Device, score: int)
    ensures alerted && retrySent == Some(SeedDevices()[1])
    ensures laptop == SeedDevices()[1].(analysis := Some(a)) && score == 850 + 15
  {
    var store := new Storage(None, None);
    var app := new App.Mount(store);
    app.Register("Aravind", "Pune", freshId);
    SeedsWellFormed();
    FindByOwnId(SeedDevices(), 1);
    var sent, ignored;
    sent, alerted := app.Analyze("2", Failure);
    retrySent, ignored := app.Analyze("2", Success(a));
    laptop := app.devices[1];
    score := app.user.stats.score;
  }
}
