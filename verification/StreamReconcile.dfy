/**
 The live demo stream of an instance: what the enable and the disable store and write, what a save
 finds drifted, and what it plans. The hub's answers are parameters.
 */
module StreamReconcile {
  import opened Common
  import opened ServerCfg

  /** What is stored for an instance; "" is no token and no port. */
  datatype Wiring = Wiring(enabled: bool, token: string, serverId: Option<int>, port: string)

  datatype Host = Host(tunnelOn: bool, tunnelPort: string, hubConfigured: bool, hubUrl: string,
      telemetryUrl: Option<string>)

  /** An instance of a host, or of none; telemetry may have reserved an id for it. */
  datatype Instance = Instance(host: Option<Host>, hostId: nat, telemetryId: Option<int>)

  /** The addon's switches; a launch argument needs all three scopes on. */
  datatype Store = Store(wiring: map<nat, Wiring>, cfg: map<nat, string>, hostOn: set<nat>, instanceOn: set<nat>)

  /** What does not change here: whether the addon is there and on, and its relay is configured. */
  datatype Site = Site(loaded: bool, globalOn: bool, relayConfigured: bool)

  const DEFAULT_TUNNEL_PORT := "27999"
  const NO_WIRING := Wiring(false, "", None, "")
  const STREAM_CVARS: set<string> := {"sv_demoStream", "sv_demoStreamHost", "sv_demoStreamPort", "sv_demoStreamToken"}

  function WiringOf(s: Store, id: nat): Wiring {
    if id in s.wiring then s.wiring[id] else NO_WIRING
  }

  function TunnelPort(h: Host): string {
    if h.tunnelPort == "" then DEFAULT_TUNNEL_PORT else h.tunnelPort
  }

  /** Telemetry's id, when it uses the same hub. */
  function SharedId(inst: Instance): Option<int> {
    if inst.telemetryId.Some? && inst.host.Some? && inst.host.value.telemetryUrl == Some(inst.host.value.hubUrl)
    then inst.telemetryId else None
  }

  predicate LaunchArgsActive(site: Site, s: Store, inst: Instance, id: nat) {
    site.loaded && site.globalOn && inst.hostId in s.hostOn && id in s.instanceOn
  }

  function OpenLaunchArgs(site: Site, s: Store, inst: Instance, id: nat): Store {
    if site.loaded then s.(hostOn := s.hostOn + {inst.hostId}, instanceOn := s.instanceOn + {id}) else s
  }

  function StripStream(text: string): string {
    StripText(text, STREAM_CVARS)
  }

  /** The cvars go to server.cfg, or leave it because the launch arguments carry them. */
  function WriteCvars(site: Site, s: Store, inst: Instance, id: nat, cvars: seq<Cvar>): Store {
    var open := OpenLaunchArgs(site, s, inst, id);
    if LaunchArgsActive(site, open, inst, id) then
      if id in open.cfg then open.(cfg := open.cfg[id := StripStream(open.cfg[id])]) else open
    else open.(cfg := open.cfg[id := UpsertText(if id in open.cfg then open.cfg[id] else "", cvars)])
  }

  // ---- enable and disable --------------------------------------------------------------------------

  /** The hub's and the queue's answers to one enable. */
  datatype Answers = Answers(reserved: Option<int>, routeTaken: bool, freshToken: string, queueApply: bool,
      queued: bool)

  /** The id the stream runs under, stored if it is new; None if none could be reserved. */
  function ResolvedId(s: Store, inst: Instance, id: nat, a: Answers): Option<int> {
    if SharedId(inst).Some? then SharedId(inst)
    else if WiringOf(s, id).serverId.Some? then WiringOf(s, id).serverId
    else a.reserved
  }

  function WithWiring(s: Store, id: nat, w: Wiring): Store {
    s.(wiring := s.wiring[id := w])
  }

  function EnableCvars(port: string, token: string): seq<Cvar> {
    [Cvar("sv_demoStream", "1"), Cvar("sv_demoStreamHost", "127.0.0.1"), Cvar("sv_demoStreamPort", port),
     Cvar("sv_demoStreamToken", token)]
  }

  predicate Allowed(site: Site, inst: Instance) {
    inst.host.Some? && site.relayConfigured && inst.host.value.hubConfigured && inst.host.value.tunnelOn
  }

  predicate EnableSucceeds(site: Site, s: Store, inst: Instance, id: nat, a: Answers) {
    Allowed(site, inst) && ResolvedId(s, inst, id, a).Some? && a.routeTaken && (a.queueApply ==> a.queued)
  }

  function TokenFor(s: Store, id: nat, a: Answers): string {
    if WiringOf(s, id).token == "" then a.freshToken else WiringOf(s, id).token
  }

  function Enabled(site: Site, s: Store, inst: Instance, id: nat, a: Answers): Store {
    if !Allowed(site, inst) then s
    else
      var serverId := ResolvedId(s, inst, id, a);
      if serverId.None? then s
      else
        var named := if WiringOf(s, id).serverId == serverId then s
                     else WithWiring(s, id, WiringOf(s, id).(serverId := serverId));
        if !a.routeTaken then named
        else
          var token, port := TokenFor(s, id, a), TunnelPort(inst.host.value);
          var wired := WithWiring(named, id, WiringOf(named, id).(token := token, port := port));
          var written := WriteCvars(site, wired, inst, id, EnableCvars(port, token));
          WithWiring(written, id, WiringOf(written, id).(enabled := true))
  }

  const OFF_CVARS := [Cvar("sv_demoStream", "0")]

  function Disabled(site: Site, s: Store, inst: Instance, id: nat): Store {
    if inst.host.None? then s
    else
      var written := WriteCvars(site, s, inst, id, OFF_CVARS);
      WithWiring(written, id, WiringOf(written, id).(enabled := false))
  }

  /** The addon's stored state as the jobs change it. */
  class Panel {
    const site: Site
    var wiring: map<nat, Wiring>
    var cfg: map<nat, string>
    var hostOn: set<nat>
    var instanceOn: set<nat>

    ghost function View(): Store
      reads this
    {
      Store(wiring, cfg, hostOn, instanceOn)
    }

    constructor (site: Site)
      ensures this.site == site && View() == Store(map[], map[], {}, {})
    {
      this.site := site;
      wiring, cfg, hostOn, instanceOn := map[], map[], {}, {};
    }

    method Write(inst: Instance, id: nat, cvars: seq<Cvar>)
      modifies this`cfg, this`hostOn, this`instanceOn
      ensures View() == WriteCvars(site, old(View()), inst, id, cvars)
    {
      if site.loaded {
        hostOn := hostOn + {inst.hostId};
        instanceOn := instanceOn + {id};
      }
      var text := if id in cfg then Some(cfg[id]) else None;
      var updated: string;
      if site.loaded && site.globalOn && inst.hostId in hostOn && id in instanceOn {
        if text.None? {
          return;
        }
        updated := StripCvars(text.value, STREAM_CVARS);
      } else {
        updated := UpsertCvars(if text.Some? then text.value else "", cvars);
      }
      if Some(updated) == text {
        assert cfg[id := updated] == cfg;
        return;
      }
      cfg := cfg[id := updated];
    }

    method Enable(inst: Instance, id: nat, a: Answers) returns (ok: bool)
      modifies this
      ensures View() == Enabled(site, old(View()), inst, id, a)
      ensures ok == EnableSucceeds(site, old(View()), inst, id, a)
    {
      if inst.host.None? || !site.relayConfigured || !inst.host.value.hubConfigured || !inst.host.value.tunnelOn {
        return false;
      }
      hide WriteCvars;
      var w := if id in wiring then wiring[id] else NO_WIRING;
      var serverId := if SharedId(inst).Some? then SharedId(inst) else if w.serverId.Some? then w.serverId else a.reserved;
      if serverId.None? {
        return false;
      }
      if w.serverId != serverId {
        w := w.(serverId := serverId);
        wiring := wiring[id := w];
      }
      var token := if w.token == "" then a.freshToken else w.token;
      if !a.routeTaken {
        return false;
      }
      var port := TunnelPort(inst.host.value);
      w := w.(token := token, port := port);
      wiring := wiring[id := w];
      Write(inst, id, EnableCvars(port, token));
      WriteKeepsWiring(site, old(View()).(wiring := wiring), inst, id, EnableCvars(port, token));
      wiring := wiring[id := w.(enabled := true)];
      ok := !a.queueApply || a.queued;
    }

    method Disable(inst: Instance, id: nat, queueApply: bool, queued: bool) returns (ok: bool)
      modifies this
      ensures View() == Disabled(site, old(View()), inst, id)
      ensures ok == (inst.host.Some? && (queueApply ==> queued))
    {
      if inst.host.None? {
        return false;
      }
      hide WriteCvars;
      Write(inst, id, OFF_CVARS);
      WriteKeepsWiring(site, old(View()), inst, id, OFF_CVARS);
      var w := if id in wiring then wiring[id] else NO_WIRING;
      wiring := wiring[id := w.(enabled := false)];
      ok := !queueApply || queued;
    }
  }

  lemma WriteKeepsWiring(site: Site, s: Store, inst: Instance, id: nat, cvars: seq<Cvar>)
    ensures WriteCvars(site, s, inst, id, cvars).wiring == s.wiring
  {}

  // ---- what a save finds and plans ---------------------------------------------------------------------

  datatype Drift = NoDrift | NoToken | OtherServerId | LaunchArgsOff | CfgSetsCvars | NotOn | NotLocal | OtherPort

  function CfgCvars(s: Store, id: nat): map<string, string> {
    Restricted(Exec(Lines(if id in s.cfg then s.cfg[id] else "")), STREAM_CVARS)
  }

  /** The values passed as launch arguments; only the switch when the stream is off. */
  function LaunchCvars(s: Store, inst: Instance, id: nat): map<string, string>
    requires inst.host.Some?
  {
    var w := WiringOf(s, id);
    if !w.enabled || w.token == "" then map["sv_demoStream" := "0"]
    else map["sv_demoStream" := "1", "sv_demoStreamHost" := "127.0.0.1",
             "sv_demoStreamPort" := if w.port == "" then TunnelPort(inst.host.value) else w.port,
             "sv_demoStreamToken" := w.token]
  }

  predicate Has(m: map<string, string>, name: string, value: string) {
    name in m && m[name] == value
  }

  function WiringDrift(site: Site, s: Store, inst: Instance, id: nat): Drift
    requires inst.host.Some?
  {
    var w, shared, cvars := WiringOf(s, id), SharedId(inst), LaunchCvars(s, inst, id);
    if w.token == "" then NoToken
    else if w.serverId.Some? && shared.Some? && w.serverId != shared then OtherServerId
    else if !LaunchArgsActive(site, s, inst, id) then LaunchArgsOff
    else if CfgCvars(s, id) != map[] then CfgSetsCvars
    else if !Has(cvars, "sv_demoStream", "1") then NotOn
    else if !Has(cvars, "sv_demoStreamHost", "127.0.0.1") then NotLocal
    else if !Has(cvars, "sv_demoStreamPort", TunnelPort(inst.host.value)) then OtherPort
    else NoDrift
  }

  datatype Action = Nothing | Enable | Disable | SetDelay | Refused

  /** The hub's delay of a streaming instance: unknown, its default, or an override. */
  datatype HubDelay = Unknown | RouteLost | HubDefault | Override(delay: real)

  predicate SameDelay(a: real, b: real) {
    -0.001 <= a - b <= 0.001
  }

  /** A save of `wanted` (None: as it is) with a delay (None: blank). */
  function Plan(site: Site, s: Store, inst: Instance, id: nat, wanted: Option<bool>, delay: Option<real>,
      hub: HubDelay): Action
    requires inst.host.Some?
  {
    var enabled := WiringOf(s, id).enabled;
    var want := if wanted.Some? then wanted.value else enabled;
    var enable := if site.relayConfigured && inst.host.value.tunnelOn then Enable else Refused;
    if !enabled && want then enable
    else if enabled && !want then Disable
    else if !enabled then
      if delay.Some? then Refused else if CfgCvars(s, id) != map[] then Disable else Nothing
    else if WiringDrift(site, s, inst, id) != NoDrift || hub == RouteLost then enable
    else if delay.None? && !hub.Override? then Nothing
    else if delay.Some? && hub.Override? && SameDelay(hub.delay, delay.value) then Nothing
    else SetDelay
  }

  // ---- saving repairs, and then stays quiet -----------------------------------------------------------

  /** The enable repairs every kind of drift, exactly when the addon is on everywhere. */
  lemma EnableRepairsIff(site: Site, s: Store, inst: Instance, id: nat, a: Answers)
    requires EnableSucceeds(site, s, inst, id, a) && a.freshToken != ""
    ensures WiringDrift(site, Enabled(site, s, inst, id, a), inst, id) ==
            if site.loaded && site.globalOn then NoDrift else LaunchArgsOff
    ensures WiringOf(Enabled(site, s, inst, id, a), id).enabled
  {
    var serverId := ResolvedId(s, inst, id, a);
    var named := if WiringOf(s, id).serverId == serverId then s
                 else WithWiring(s, id, WiringOf(s, id).(serverId := serverId));
    var token, port := TokenFor(s, id, a), TunnelPort(inst.host.value);
    var wired := WithWiring(named, id, WiringOf(named, id).(token := token, port := port));
    var written := WriteCvars(site, wired, inst, id, EnableCvars(port, token));
    var s' := Enabled(site, s, inst, id, a);
    assert s' == WithWiring(written, id, WiringOf(written, id).(enabled := true));
    assert port != "" && token != "";
    WriteSwitches(site, wired, inst, id, EnableCvars(port, token));
    hide WriteCvars, CfgCvars, EnableCvars, Enabled;
    assert CfgCvars(s', id) == CfgCvars(written, id) by { SameCfg(s', written, id); }
  }

  lemma SameCfg(s: Store, t: Store, id: nat)
    requires s.cfg == t.cfg
    ensures CfgCvars(s, id) == CfgCvars(t, id)
  {}

  /** Which switches are on after a write, and that active launch arguments leave server.cfg clean. */
  lemma WriteSwitches(site: Site, s: Store, inst: Instance, id: nat, cvars: seq<Cvar>)
    ensures var s' := WriteCvars(site, s, inst, id, cvars);
            && s'.wiring == s.wiring
            && (LaunchArgsActive(site, s', inst, id) <==> site.loaded && site.globalOn)
            && (site.loaded && site.globalOn ==> CfgCvars(s', id) == map[])
  {
    if site.loaded && site.globalOn {
      if id in s.cfg {
        StripUnsets(s.cfg[id], STREAM_CVARS, []);
      } else {
        OneEmptyLine();
      }
    }
    hide Lines, UpsertText, StripText, IsDict, Exec;
  }

  /** After the repair, a save that keeps the stream on plans no further enable or disable. */
  lemma SavedEnableStaysQuiet(site: Site, s: Store, inst: Instance, id: nat, a: Answers,
                              delay: Option<real>, hub: HubDelay)
    requires EnableSucceeds(site, s, inst, id, a) && a.freshToken != "" && site.loaded && site.globalOn
    requires hub != RouteLost
    ensures var action := Plan(site, Enabled(site, s, inst, id, a), inst, id, Some(true), delay, hub);
            && action in {Nothing, SetDelay}
            && (action == Nothing <==>
                  (delay.None? && !hub.Override?) || (delay.Some? && hub.Override?
                      && SameDelay(hub.delay, delay.value)))
  {
    EnableRepairsIff(site, s, inst, id, a);
    hide Enabled, WiringDrift, EnableSucceeds;
  }

  /** The addon off globally is never repaired: every save of the running stream plans the enable again. */
  lemma GloballyOffNeverQuiet(site: Site, s: Store, inst: Instance, id: nat, a: Answers, delay: Option<real>,
      hub: HubDelay)
    requires EnableSucceeds(site, s, inst, id, a) && a.freshToken != "" && !(site.loaded && site.globalOn)
    ensures Plan(site, Enabled(site, s, inst, id, a), inst, id, Some(true), delay, hub) == Enable
  {
    EnableRepairsIff(site, s, inst, id, a);
    hide Enabled, WiringDrift;
  }

  /** After a disable, an off-save with a blank delay plans nothing exactly when the addon is on everywhere. */
  lemma DisableStaysQuietIff(site: Site, s: Store, inst: Instance, id: nat, hub: HubDelay)
    requires inst.host.Some?
    ensures var s' := Disabled(site, s, inst, id);
            && !WiringOf(s', id).enabled
            && Plan(site, s', inst, id, Some(false), None, hub) == if site.loaded
                && site.globalOn then Nothing else Disable
  {
    var written := WriteCvars(site, s, inst, id, OFF_CVARS);
    var s' := Disabled(site, s, inst, id);
    assert s'.cfg == written.cfg;
    SameCfg(s', written, id);
    WriteSwitches(site, s, inst, id, OFF_CVARS);
    if !(site.loaded && site.globalOn) {
      OffLineStays(site, s, inst, id);
    }
    hide WriteCvars, CfgCvars;
  }

  lemma OffIsDict()
    ensures IsDict(OFF_CVARS) && Named(OFF_CVARS, "sv_demoStream")
  {
    assert OFF_CVARS[0].name == "sv_demoStream";
  }

  lemma OffLineStays(site: Site, s: Store, inst: Instance, id: nat)
    requires !(site.loaded && site.globalOn)
    ensures CfgCvars(WriteCvars(site, s, inst, id, OFF_CVARS), id) != map[]
  {
    OffIsDict();
    var text := if id in s.cfg then s.cfg[id] else "";
    var s' := WriteCvars(site, s, inst, id, OFF_CVARS);
    assert id in s'.cfg && s'.cfg[id] == UpsertText(text, OFF_CVARS);
    UpsertPreserves(text, OFF_CVARS);
    NamesNamed(OFF_CVARS);
    hide Lines, UpsertText, Exec, IsDict, ValueOf, Stripped, SetCount;
    assert "sv_demoStream" in AsMap(OFF_CVARS);
    assert "sv_demoStream" in Exec(Lines(s'.cfg[id]));
    assert "sv_demoStream" in CfgCvars(s', id);
  }

  /** Nothing of an instance differs between two states. */
  predicate SameFor(s: Store, t: Store, other: nat) {
    WiringOf(t, other) == WiringOf(s, other) && (other in t.cfg <==> other in s.cfg)
    && (other in s.cfg ==> t.cfg[other] == s.cfg[other])
  }

  lemma WiringSame(s: Store, id: nat, w: Wiring, other: nat)
    requires other != id
    ensures SameFor(s, WithWiring(s, id, w), other)
  {}

  lemma WriteSame(site: Site, s: Store, inst: Instance, id: nat, cvars: seq<Cvar>, other: nat)
    requires other != id
    ensures SameFor(s, WriteCvars(site, s, inst, id, cvars), other)
  {
    hide StripStream, UpsertText;
  }

  lemma EnabledSame(site: Site, s: Store, inst: Instance, id: nat, a: Answers, other: nat)
    requires other != id
    ensures SameFor(s, Enabled(site, s, inst, id, a), other)
  {
    hide WithWiring, WriteCvars, ResolvedId, TokenFor, TunnelPort, EnableCvars;
    forall t: Store, w: Wiring ensures SameFor(t, WithWiring(t, id, w), other) {
      WiringSame(t, id, w, other);
    }
    forall t: Store, cvars ensures SameFor(t, WriteCvars(site, t, inst, id, cvars), other) {
      WriteSame(site, t, inst, id, cvars, other);
    }
  }

  lemma DisabledSame(site: Site, s: Store, inst: Instance, id: nat, other: nat)
    requires other != id
    ensures SameFor(s, Disabled(site, s, inst, id), other)
  {
    hide WithWiring, WriteCvars;
    if inst.host.Some? {
      var written := WriteCvars(site, s, inst, id, OFF_CVARS);
      WriteSame(site, s, inst, id, OFF_CVARS, other);
      WiringSame(written, id, WiringOf(written, id).(enabled := false), other);
    }
  }

  lemma SameCvars(s: Store, t: Store, other: nat)
    requires SameFor(s, t, other)
    ensures CfgCvars(t, other) == CfgCvars(s, other)
  {}

  /** An enable or a disable touches no other instance. */
  lemma OthersUntouched(site: Site, s: Store, inst: Instance, id: nat, a: Answers, other: nat)
    requires other != id
    ensures WiringOf(Enabled(site, s, inst, id, a), other) == WiringOf(s, other)
    ensures WiringOf(Disabled(site, s, inst, id), other) == WiringOf(s, other)
    ensures CfgCvars(Enabled(site, s, inst, id, a), other) == CfgCvars(s, other)
    ensures CfgCvars(Disabled(site, s, inst, id), other) == CfgCvars(s, other)
  {
    hide Enabled, Disabled, CfgCvars;
    EnabledSame(site, s, inst, id, a, other);
    DisabledSame(site, s, inst, id, other);
    SameCvars(s, Enabled(site, s, inst, id, a), other);
    SameCvars(s, Disabled(site, s, inst, id), other);
  }
}
