/** The user step of config_flow.py: pick a device (by broadcast discovery when
    the address is the broadcast sentinel), authenticate against it, and map the
    outcome to an entry or to an error key on the form. */
module ConfigFlow {
  import opened Common
  import opened Device

  const BROADCAST := "<broadcast>"
  const DEFAULT_PORT := 4000
  /** The id a handle reports while it has not identified a device. */
  const PLACEHOLDER_ID := "DEFAULT_DEVICEID"
  const DEFAULT_PASSWORD := "1111"
  const DEFAULT_NAME := "Vento Expert Fan"

  /** The fields of the user form. */
  datatype UserInput = UserInput(ip: string, port: int, deviceId: string, password: string, name: string)

  /** The defaults STEP_USER_DATA_SCHEMA shows. */
  const FORM_DEFAULTS := UserInput(BROADCAST, DEFAULT_PORT, PLACEHOLDER_ID, DEFAULT_PASSWORD, DEFAULT_NAME)

  /** What `validate_input` returns: the entry title and the device id. */
  datatype Info = Info(title: string, id: string)

  /** What the step shows next: the form, with an error key or without, or a new entry. */
  datatype FlowResult = ShowForm(error: Option<string>) | CreateEntry(title: string, data: UserInput)

  /** The `except` clauses of the step: the error key shown for each exception. */
  function ErrorKey(e: Exception): (key: string)
    ensures key == "cannot_connect" <==> e == CannotConnect
    ensures key == "invalid_auth" <==> e == InvalidAuth
    ensures key == "unknown" <==> e != CannotConnect && e != InvalidAuth
  {
    match e
    case CannotConnect => "cannot_connect"
    case InvalidAuth => "invalid_auth"
    case _ => "unknown"
  }

  /** The endpoint `init_device` probes for the form's credentials at `host`. */
  function ProbeOf(data: UserInput, host: string): Endpoint {
    Endpoint(host, data.port, data.deviceId, data.password)
  }

  /** What `validate_input` returns or raises, given what the device reports. */
  function Validation(data: UserInput, resolver: Resolver): Result<Info> {
    match resolver(ProbeOf(data, data.ip))
    case None => Raise(DeviceError)
    case Some(id) =>
      if id == PLACEHOLDER_ID then Raise(InvalidAuth) else Ok(Info(data.name + " " + id, id))
  }

  /** The answer `validate_input` gives: it raises InvalidAuth exactly when the
      device still reports the placeholder id, and otherwise names the entry
      after the form's name and the reported id. */
  lemma ValidationOutcomes(data: UserInput, resolver: Resolver)
    ensures Validation(data, resolver) == Raise(InvalidAuth) <==>
      resolver(ProbeOf(data, data.ip)) == Some(PLACEHOLDER_ID)
    ensures Validation(data, resolver).Ok? ==>
      var info := Validation(data, resolver).value;
      resolver(ProbeOf(data, data.ip)) == Some(info.id) && info.id != PLACEHOLDER_ID &&
      info.title == data.name + " " + info.id
    ensures Validation(data, resolver).Raise? ==> Validation(data, resolver).exc in {InvalidAuth, DeviceError}
  {
  }

  /** A discovered host whose device is already configured. */
  predicate Claimed(data: UserInput, existing: seq<string>, resolver: Resolver, host: string) {
    var answer := resolver(ProbeOf(data, host));
    answer.Some? && answer.value in existing
  }

  /** A discovered host whose device is not configured yet. */
  predicate Unclaimed(data: UserInput, existing: seq<string>, resolver: Resolver, host: string) {
    var answer := resolver(ProbeOf(data, host));
    answer.Some? && answer.value !in existing
  }

  /** How the discovery loop ends: on the index of the host it picked, on the
      index of the probe that raised, or after every host turned out claimed. */
  datatype Discovery = Found(index: nat) | AllClaimed | ProbeFailed(index: nat)

  /** The discovery loop from index `i` on. */
  function DiscoverFrom(ips: seq<string>, i: nat, data: UserInput, existing: seq<string>,
                        resolver: Resolver): (d: Discovery)
    requires i <= |ips|
    ensures d.Found? ==> i <= d.index < |ips| && Unclaimed(data, existing, resolver, ips[d.index])
    ensures d.ProbeFailed? ==> i <= d.index < |ips| && resolver(ProbeOf(data, ips[d.index])).None?
    decreases |ips| - i
  {
    if i == |ips| then AllClaimed
    else match resolver(ProbeOf(data, ips[i]))
      case None => ProbeFailed(i)
      case Some(id) =>
        if id !in existing then Found(i) else DiscoverFrom(ips, i + 1, data, existing, resolver)
  }

  function Discover(ips: seq<string>, data: UserInput, existing: seq<string>, resolver: Resolver): Discovery {
    DiscoverFrom(ips, 0, data, existing, resolver)
  }

  /** How many discovered hosts the loop probes before it stops. */
  function ProbeCount(d: Discovery, ips: seq<string>): nat {
    match d
    case Found(k) => k + 1
    case ProbeFailed(k) => k + 1
    case AllClaimed => |ips|
  }

  /** The form, validated: an entry, or the form with the key of what was raised. */
  function Finish(data: UserInput, resolver: Resolver): FlowResult {
    match Validation(data, resolver)
    case Ok(info) => CreateEntry(info.title, data)
    case Raise(e) => ShowForm(Some(ErrorKey(e)))
  }

  /** `async_step_user` as a function of the form, what `search_devices`
      answers (the hosts it found, or None where it raises) and the unique ids
      of the entries already configured. */
  function UserStep(input: Option<UserInput>, search: Option<seq<string>>, existing: seq<string>,
                    resolver: Resolver): FlowResult
  {
    match input
    case None => ShowForm(None)
    case Some(data) =>
      if data.ip != BROADCAST then Finish(data, resolver)
      else match search
        case None => ShowForm(Some(ErrorKey(DeviceError)))
        case Some(ips) =>
          match Discover(ips, data, existing, resolver)
          case ProbeFailed(_) => ShowForm(Some(ErrorKey(DeviceError)))
          case AllClaimed => ShowForm(Some(ErrorKey(CannotConnect)))
          case Found(k) =>
            if ips[k] == BROADCAST then ShowForm(Some(ErrorKey(CannotConnect)))
            else Finish(data.(ip := ips[k]), resolver)
  }

  /** The number of `init_device` calls the discovery loop of the step makes;
      the call `validate_input` makes afterwards is not among them. */
  function LoopProbeCount(input: Option<UserInput>, search: Option<seq<string>>, existing: seq<string>,
                          resolver: Resolver): (n: nat)
    ensures search.Some? ==> n <= |search.value|
    ensures search.None? ==> n == 0
  {
    match input
    case None => 0
    case Some(data) =>
      if data.ip != BROADCAST || search.None? then 0
      else ProbeCount(Discover(search.value, data, existing, resolver), search.value)
  }

  /** The loop picks host k exactly when k is the first host whose device is
      unclaimed and every host before it answered with a claimed id. */
  lemma {:induction false} FoundFrom(ips: seq<string>, i: nat, k: nat, data: UserInput,
                                     existing: seq<string>, resolver: Resolver)
    requires i <= k < |ips|
    ensures DiscoverFrom(ips, i, data, existing, resolver) == Found(k) <==>
      Unclaimed(data, existing, resolver, ips[k]) &&
      forall j :: i <= j < k ==> Claimed(data, existing, resolver, ips[j])
    decreases k - i
  {
    if i < k {
      FoundFrom(ips, i + 1, k, data, existing, resolver);
    }
  }

  /** First fit: discovery selects the first host, in discovery order, whose
      device is not configured yet. */
  lemma FoundIsFirstFit(ips: seq<string>, k: nat, data: UserInput, existing: seq<string>,
                        resolver: Resolver)
    requires k < |ips|
    ensures Discover(ips, data, existing, resolver) == Found(k) <==>
      Unclaimed(data, existing, resolver, ips[k]) &&
      forall j :: 0 <= j < k ==> Claimed(data, existing, resolver, ips[j])
  {
    FoundFrom(ips, 0, k, data, existing, resolver);
  }

  lemma {:induction false} AllClaimedFrom(ips: seq<string>, i: nat, data: UserInput,
                                          existing: seq<string>, resolver: Resolver)
    requires i <= |ips|
    ensures DiscoverFrom(ips, i, data, existing, resolver) == AllClaimed <==>
      forall j :: i <= j < |ips| ==> Claimed(data, existing, resolver, ips[j])
    decreases |ips| - i
  {
    if i < |ips| {
      AllClaimedFrom(ips, i + 1, data, existing, resolver);
    }
  }

  /** Discovery comes up empty exactly when every host answered with a claimed
      id; in particular when nothing was discovered. */
  lemma AllClaimedIff(ips: seq<string>, data: UserInput, existing: seq<string>, resolver: Resolver)
    ensures Discover(ips, data, existing, resolver) == AllClaimed <==>
      forall j :: 0 <= j < |ips| ==> Claimed(data, existing, resolver, ips[j])
    ensures ips == [] ==> Discover(ips, data, existing, resolver) == AllClaimed
  {
    AllClaimedFrom(ips, 0, data, existing, resolver);
  }

  lemma {:induction false} FailedFrom(ips: seq<string>, i: nat, k: nat, data: UserInput,
                                      existing: seq<string>, resolver: Resolver)
    requires i <= k < |ips|
    ensures DiscoverFrom(ips, i, data, existing, resolver) == ProbeFailed(k) <==>
      resolver(ProbeOf(data, ips[k])).None? &&
      forall j :: i <= j < k ==> Claimed(data, existing, resolver, ips[j])
    decreases k - i
  {
    if i < k {
      FailedFrom(ips, i + 1, k, data, existing, resolver);
    }
  }

  /** A probe that raises ends discovery, unless an earlier host was picked. */
  lemma ProbeFailedIff(ips: seq<string>, k: nat, data: UserInput, existing: seq<string>,
                       resolver: Resolver)
    requires k < |ips|
    ensures Discover(ips, data, existing, resolver) == ProbeFailed(k) <==>
      resolver(ProbeOf(data, ips[k])).None? &&
      forall j :: 0 <= j < k ==> Claimed(data, existing, resolver, ips[j])
  {
    FailedFrom(ips, 0, k, data, existing, resolver);
  }

  lemma {:induction false} LaterHostsIgnoredFrom(ips: seq<string>, more: seq<string>, i: nat,
                                                 data: UserInput, existing: seq<string>,
                                                 resolver: Resolver)
    requires i <= |ips|
    requires DiscoverFrom(ips, i, data, existing, resolver) != AllClaimed
    ensures DiscoverFrom(ips + more, i, data, existing, resolver) == DiscoverFrom(ips, i, data, existing, resolver)
    decreases |ips| - i
  {
    assert (ips + more)[i] == ips[i];
    if resolver(ProbeOf(data, ips[i])).Some? && resolver(ProbeOf(data, ips[i])).value in existing {
      LaterHostsIgnoredFrom(ips, more, i + 1, data, existing, resolver);
    }
  }

  /** Hosts after the one the loop stops on are never examined: appending more
      discovered hosts does not change a pick or a failure. */
  lemma LaterHostsIgnored(ips: seq<string>, more: seq<string>, data: UserInput,
                          existing: seq<string>, resolver: Resolver)
    requires Discover(ips, data, existing, resolver) != AllClaimed
    ensures Discover(ips + more, data, existing, resolver) == Discover(ips, data, existing, resolver)
  {
    LaterHostsIgnoredFrom(ips, more, 0, data, existing, resolver);
  }

  /** With the broadcast address and no discovered host free (none discovered
      included), the step fails with "cannot_connect". */
  lemma NoFreeDeviceCannotConnect(data: UserInput, ips: seq<string>, existing: seq<string>,
                                  resolver: Resolver)
    requires data.ip == BROADCAST
    requires forall j :: 0 <= j < |ips| ==> Claimed(data, existing, resolver, ips[j])
    ensures UserStep(Some(data), Some(ips), existing, resolver) == ShowForm(Some("cannot_connect"))
  {
    AllClaimedIff(ips, data, existing, resolver);
  }

  /** With the broadcast address, a search that raises shows the form with
      "unknown", whatever is configured. */
  lemma SearchFailureIsUnknown(data: UserInput, existing: seq<string>, resolver: Resolver)
    requires data.ip == BROADCAST
    ensures UserStep(Some(data), None, existing, resolver) == ShowForm(Some("unknown"))
    ensures LoopProbeCount(Some(data), None, existing, resolver) == 0
  {
  }

  /** Any other address skips discovery: neither what the search would answer
      nor the configured entries matter, and the loop probes nothing. */
  lemma DirectAddressSkipsDiscovery(data: UserInput, search: Option<seq<string>>, existing: seq<string>,
                                    resolver: Resolver)
    requires data.ip != BROADCAST
    ensures UserStep(Some(data), search, existing, resolver) == UserStep(Some(data), None, [], resolver)
    ensures UserStep(Some(data), search, existing, resolver) == Finish(data, resolver)
    ensures LoopProbeCount(Some(data), search, existing, resolver) == 0
  {
  }

  /** An entry is created only on the path where nothing was raised. It stores
      the form with only the address possibly rewritten, to a host that is not
      the broadcast sentinel. Its title and id are the validated ones. A device
      picked by discovery is never one already configured. */
  lemma EntryOnlyOnSuccess(data: UserInput, search: Option<seq<string>>, existing: seq<string>,
                           resolver: Resolver, title: string, entry: UserInput)
    requires UserStep(Some(data), search, existing, resolver) == CreateEntry(title, entry)
    ensures entry == data.(ip := entry.ip) && entry.ip != BROADCAST
    ensures data.ip != BROADCAST ==> entry == data
    ensures Validation(entry, resolver).Ok? && Validation(entry, resolver).value.title == title
    ensures data.ip == BROADCAST ==>
      search.Some? && entry.ip in search.value && Validation(entry, resolver).value.id !in existing
  {
    if data.ip == BROADCAST {
      var ips := search.value;
      var d := Discover(ips, data, existing, resolver);
      assert d.Found?;
      assert ProbeOf(entry, entry.ip) == ProbeOf(data, ips[d.index]);
    }
  }

  /** The form returned after an error carries one of the three keys. */
  lemma ErrorsAreKnownKeys(input: Option<UserInput>, search: Option<seq<string>>, existing: seq<string>,
                           resolver: Resolver, key: string)
    requires UserStep(input, search, existing, resolver) == ShowForm(Some(key))
    ensures key in {"cannot_connect", "invalid_auth", "unknown"}
    ensures input.Some?
  {
  }

  class VentoHub {
    var host: string
    var port: int
    var fanId: string
    var name: string
    var fan: Fan?
    const resolver: Resolver

    constructor (host: string, port: int, fanId: string, name: string, resolver: Resolver)
      ensures this.host == host && this.port == port && this.fanId == fanId && this.name == name
      ensures this.resolver == resolver && fan == null
    {
      this.host, this.port, this.fanId, this.name := host, port, fanId, name;
      this.resolver := resolver;
      fan := null;
    }

    /** `authenticate`: a fresh handle on the hub's endpoint, then `init_device`.
        The hub adopts the reported id and appends it to its name; the answer
        is whether that id differs from the placeholder. When `init_device`
        raises, so does this, and the hub keeps its id and name. */
    method Authenticate(password: string) returns (r: Result<bool>)
      modifies this`fanId, this`name, this`fan
      ensures fan != null && fresh(fan) && fan.log == [] && fan.resolver == resolver
      ensures fan.host == host && fan.port == port && fan.password == password && fan.name == old(name)
      ensures fan.id == match resolver(Endpoint(host, port, old(fanId), password))
                        case Some(id) => id
                        case None => old(fanId)
      ensures var answer := resolver(Endpoint(host, port, old(fanId), password));
        match answer
        case None => r == Raise(DeviceError) && fanId == old(fanId) && name == old(name)
        case Some(id) =>
          r == Ok(id != PLACEHOLDER_ID) && fanId == id && name == old(name) + " " + id
    {
      var handle := new Fan(host, password, fanId, name, port, resolver);
      fan := handle;
      var ok := handle.InitDevice();
      if !ok {
        r := Raise(DeviceError);
        return;
      }
      fanId := handle.id;
      name := name + " " + fanId;
      r := Ok(handle.id != PLACEHOLDER_ID);
    }
  }

  /** `validate_input`: authenticates a new hub built from the form. */
  method ValidateInput(data: UserInput, resolver: Resolver) returns (r: Result<Info>)
    ensures r == Validation(data, resolver)
  {
    var hub := new VentoHub(data.ip, data.port, data.deviceId, data.name, resolver);
    var auth := hub.Authenticate(data.password);
    match auth
    case Raise(e) =>
      r := Raise(e);
    case Ok(authenticated) =>
      if !authenticated {
        r := Raise(InvalidAuth);
      } else {
        r := Ok(Info(hub.name, hub.fanId));
      }
  }

  class VentoConfigFlow {
    /** The flow's own handle, re-aimed at each discovered host in turn. */
    const fan: Fan

    constructor (resolver: Resolver)
      ensures fresh(fan) && fan.resolver == resolver && fan.log == []
      ensures fan.host == BROADCAST && fan.password == DEFAULT_PASSWORD && fan.id == PLACEHOLDER_ID
      ensures fan.name == "Vento Express" && fan.port == DEFAULT_PORT
    {
      fan := new Fan(BROADCAST, DEFAULT_PASSWORD, PLACEHOLDER_ID, "Vento Express", DEFAULT_PORT, resolver);
    }

    /** `async_step_user`. `search` is what `search_devices` answers (None
        where it raises) and `existing` the unique ids of the entries already
        configured. The handle ends aimed at the last host probed, with the
        form's credentials and the id that host reported; it issues no request. */
    method AsyncStepUser(input: Option<UserInput>, search: Option<seq<string>>, existing: seq<string>)
      returns (result: FlowResult)
      modifies fan`host, fan`id, fan`password, fan`name, fan`port
      ensures result == UserStep(input, search, existing, fan.resolver)
      ensures var n := LoopProbeCount(input, search, existing, fan.resolver);
        (n == 0 ==> fan.host == old(fan.host) && fan.id == old(fan.id) &&
                    fan.password == old(fan.password) && fan.name == old(fan.name) &&
                    fan.port == old(fan.port)) &&
        (n > 0 ==> var data := input.value;
                   fan.host == search.value[n - 1] && fan.port == data.port &&
                   fan.password == data.password && fan.name == data.name &&
                   fan.id == match fan.resolver(ProbeOf(data, fan.host))
                             case Some(id) => id
                             case None => data.deviceId)
    {
      if input.None? {
        return ShowForm(None);
      }
      var data := input.value;
      if data.ip == BROADCAST {
        if search.None? {
          return ShowForm(Some(ErrorKey(DeviceError)));
        }
        var discovered := search.value;
        var i := 0;
        var chosen := data;
        while i < |discovered|
          invariant 0 <= i <= |discovered|
          invariant chosen == data
          invariant Discover(discovered, data, existing, fan.resolver)
                    == DiscoverFrom(discovered, i, data, existing, fan.resolver)
          invariant i == 0 ==> fan.host == old(fan.host) && fan.id == old(fan.id) &&
                               fan.password == old(fan.password) && fan.name == old(fan.name) &&
                               fan.port == old(fan.port)
          invariant i > 0 ==> fan.host == discovered[i - 1] && fan.port == data.port &&
                              fan.password == data.password && fan.name == data.name &&
                              fan.resolver(ProbeOf(data, fan.host)) == Some(fan.id)
        {
          fan.host := discovered[i];
          fan.id := data.deviceId;
          fan.password := data.password;
          fan.name := data.name;
          fan.port := data.port;
          var ok := fan.InitDevice();
          if !ok {
            return ShowForm(Some(ErrorKey(DeviceError)));
          }
          if fan.id !in existing {
            chosen := data.(ip := discovered[i]);
            break;
          }
          i := i + 1;
        }
        if chosen.ip == BROADCAST {
          return ShowForm(Some(ErrorKey(CannotConnect)));
        }
        data := chosen;
      }
      var validated := ValidateInput(data, fan.resolver);
      match validated
      case Ok(info) =>
        result := CreateEntry(info.title, data);
      case Raise(e) =>
        result := ShowForm(Some(ErrorKey(e)));
    }
  }
}
