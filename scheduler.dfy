/** The renderer's per-viewer state machine as values: one `State` holds the
    renderer's fields, and each entry point of `CartographerRenderer` is a
    function from the old state and the environment to the new state. The
    class in module `Renderer` is proved to compute exactly these functions. */
module Scheduler {
  import opened Common
  import opened Aim
  import opened Fallback

  /** Identity of a `MapMenu` object. */
  type MenuId = nat
  /** An opaque `MapInteraction` value. */
  type Interaction = nat
  /** Identity of a `SimpleImage`. */
  type Image = nat

  /** `UPDATE_THRESHOLD`: compared against milliseconds of wall-clock time. */
  const UpdateThreshold: int := 5000

  /** The zoom given to a viewer the renderer has never seen. */
  const DefaultZoom: real := 1.0

  datatype Location = Location(yaw: real, pitch: real)

  /** The player's `MapViewer` preferences. */
  datatype Viewer = Viewer(rotate: BooleanOption, overlay: Option<Image>, background: Option<Image>)

  /** An online player: the map id of the map item in each hand (`None` when
      the hand holds no map), the location and the viewer preferences. */
  datatype Player = Player(mainMap: Option<int>, offMap: Option<int>, location: Location, viewer: Viewer)

  /** The parts of a `Minimap` the renderer reads. */
  datatype Minimap = Minimap(id: string, rotation: BooleanOption, overlay: Option<Image>,
                             background: Option<Image>, defaultZoom: real)

  /** The parts of the plugin the renderer reads. */
  datatype Plugin = Plugin(
    overloaded: bool,
    renderDelay: int,
    rotateByDefault: bool,
    overlay: Option<Image>,
    background: Option<Image>,
    minimaps: map<string, Minimap>)

  /** The environment of one pass: the online players, the current time in
      milliseconds, the plugin, and the viewers whose open menu's `view`
      answers "close" during this pass. */
  datatype Env = Env(players: map<Uuid, Player>, now: int, plugin: Plugin, menuCloses: set<Uuid>)

  /** `PlayerSetting`: one viewer's tracked state. */
  datatype Setting = Setting(
    uuid: Uuid,
    lastUpdated: int,
    location: Location,
    zoomscale: real,
    minimap: Option<string>,
    rotating: bool,
    mainhand: bool,
    cursorX: real,
    cursorY: real,
    cursorCenter: real,
    interaction: Option<Interaction>,
    menu: Option<MenuId>)

  /** Everything the renderer emits, in order: events, menu callbacks and
      packets. Every action names the viewer it concerns. */
  datatype Action =
    | ActivateEvent(uuid: Uuid, mainHand: bool)
    | DeactivateEvent(uuid: Uuid)
    | MenuClose(uuid: Uuid, menu: MenuId)
    | InteractEvent(uuid: Uuid, menu: MenuId, interaction: Interaction)
    | MenuDisplay(uuid: Uuid, menu: MenuId, x: int, y: int)
    | MissingMapSent(uuid: Uuid)
    | FrameSubmitted(uuid: Uuid, minimap: string, overlay: Option<Image>, background: Option<Image>)
    | FrameSent(uuid: Uuid)

  /** The renderer's fields. */
  datatype State = State(
    id: int,
    mapId: Option<string>,
    tick: nat,
    scales: map<Uuid, real>,
    settings: map<Uuid, Setting>,
    log: seq<Action>)

  /** Every setting is filed under its own player's UUID. */
  ghost predicate WellFormed(st: State)
  {
    forall u :: u in st.settings ==> st.settings[u].uuid == u
  }

  function Lookup(players: map<Uuid, Player>, u: Uuid): Option<Player>
  {
    if u in players then Some(players[u]) else None
  }

  /** `getMinimap()` and the lookup of a setting's map: resolve an id that may
      be absent or may name a deleted minimap. */
  function Resolve(mapId: Option<string>, plugin: Plugin): (r: Option<Minimap>)
    ensures r.Some? <==> mapId.Some? && mapId.value in plugin.minimaps
    ensures r.Some? ==> r.value == plugin.minimaps[mapId.value]
  {
    if mapId.Some? && mapId.value in plugin.minimaps then Some(plugin.minimaps[mapId.value]) else None
  }

  predicate InMainHand(p: Player, id: int) { p.mainMap == Some(id) }

  predicate InHand(p: Player, id: int) { InMainHand(p, id) || p.offMap == Some(id) }

  /** The rotation flag for a viewer of the renderer's current minimap. */
  function RotationFor(mapId: Option<string>, plugin: Plugin, p: Player): bool
  {
    var minimap := Resolve(mapId, plugin);
    Rotation(if minimap.Some? then Some(minimap.value.rotation) else None, p.viewer.rotate, plugin.rotateByDefault)
  }

  /** What `deactivate` reports to an open menu: one `onClose`, or nothing. */
  function CloseMenu(s: Setting): (r: seq<Action>)
    ensures |r| <= 1
    ensures r != [] <==> s.menu.Some?
    ensures r != [] ==> r[0] == MenuClose(s.uuid, s.menu.value)
  {
    if s.menu.Some? then [MenuClose(s.uuid, s.menu.value)] else []
  }

  /** The main-hand cursor update of the tick sweep. */
  function Track(s: Setting, loc: Location): (r: Setting)
    ensures -127.0 <= r.cursorX <= 127.0 && -127.0 <= r.cursorY <= 127.0
    ensures var d := Deviation(loc.yaw, s.cursorCenter);
            (-40.0 <= d <= 40.0 ==> r.cursorCenter == s.cursorCenter) &&
            -40.0 <= Deviation(loc.yaw, r.cursorCenter) <= 40.0
    ensures r == s.(cursorX := r.cursorX, cursorY := r.cursorY, cursorCenter := r.cursorCenter)
    ensures var d := Deviation(loc.yaw, s.cursorCenter);
            && r.cursorX == CursorX(d)
            && r.cursorY == CursorY(loc.pitch)
            && r.cursorCenter == s.cursorCenter - DeadZone(d)
  {
    var deviation := Deviation(loc.yaw, s.cursorCenter);
    DeadZoneSettles(loc.yaw, s.cursorCenter);
    s.(cursorX := CursorX(deviation),
       cursorCenter := s.cursorCenter - DeadZone(deviation),
       cursorY := CursorY(loc.pitch))
  }

  /** The effect of one pass on one entry: the entry it leaves (`None` when the
      entry is removed), whether `deactivate` ran (it saves the zoom into
      `scales`), what it emitted, and whether a frame task was submitted. */
  datatype Outcome = Outcome(kept: Option<Setting>, deactivated: bool, actions: seq<Action>, scheduled: bool)

  /** Deactivate event, `deactivate`, removal. */
  function Retire(u: Uuid, s: Setting): Outcome
  {
    Outcome(None, true, [DeactivateEvent(u)] + CloseMenu(s), false)
  }

  /** One entry of the tick sweep. The entry is removed after `deactivate`
      when its player is offline or holds this map in neither hand; otherwise
      it stays, with `mainhand` recording whether this map is in the main hand
      and `lastUpdated` set to now. A hand switch runs `deactivate` (closing any
      menu) and re-activates the entry in place. */
  function SweepEntry(u: Uuid, s: Setting, p: Option<Player>, id: int, mapId: Option<string>, env: Env): (o: Outcome)
    ensures !o.scheduled
    ensures o.kept.None? <==> p.None? || !InHand(p.value, id)
    ensures o.kept.None? ==> o.deactivated && o.actions == [DeactivateEvent(u)] + CloseMenu(s)
    ensures o.kept.Some? ==>
      var k := o.kept.value;
      && k.uuid == s.uuid && k.zoomscale == s.zoomscale && k.minimap == s.minimap && k.interaction == s.interaction
      && k.mainhand == InMainHand(p.value, id)
      && k.lastUpdated == env.now
      && k.location == p.value.location
      && k.rotating == RotationFor(mapId, env.plugin, p.value)
      && (k.mainhand ==> k == Track(s, p.value.location).(rotating := k.rotating, location := k.location,
                                                         mainhand := k.mainhand, lastUpdated := env.now, menu := k.menu))
      && (!k.mainhand ==> k.cursorX == s.cursorX && k.cursorY == s.cursorY && k.cursorCenter == s.cursorCenter)
      && (s.mainhand != k.mainhand ==>
            o.deactivated && k.menu.None?
            && o.actions == [DeactivateEvent(u)] + CloseMenu(s) + [ActivateEvent(u, k.mainhand)])
      && (s.mainhand == k.mainhand ==> !o.deactivated && k.menu == s.menu && o.actions == [])
  {
    if p.None? then Retire(u, s)
    else
      var player := p.value;
      var mainHand := InMainHand(player, id);
      if !InHand(player, id) then Retire(u, s)
      else
        var rotating := RotationFor(mapId, env.plugin, player);
        var tracked := if mainHand then Track(s, player.location) else s;
        var s2 := tracked.(rotating := rotating, location := player.location);
        if s2.mainhand != mainHand then
          Outcome(Some(s2.(menu := None, mainhand := mainHand, lastUpdated := env.now)), true,
                  [DeactivateEvent(u)] + CloseMenu(s2) + [ActivateEvent(u, mainHand)], false)
        else
          Outcome(Some(s2.(lastUpdated := env.now)), false, [], false)
  }

  /** `(int) Math.max(-127, Math.min(127, c))`: a cursor coordinate as sent. */
  function CursorByte(c: real): (r: int)
    ensures -127 <= r <= 127
  {
    Trunc(Clamp(c, -127.0, 127.0))
  }

  /** One entry of the update pass. An entry idle for more than
      `UpdateThreshold` milliseconds, or whose player is offline, is removed
      after `deactivate`. An open menu takes over the frame: it is closed when
      its `view` says so, otherwise its display is sent. Without a menu, a
      missing minimap sends the placeholder; otherwise one frame task is
      submitted with the overlay and background resolved minimap, viewer,
      global. Surviving entries are otherwise unchanged. */
  function UpdateEntry(u: Uuid, s: Setting, p: Option<Player>, env: Env): (o: Outcome)
    ensures o.kept.None? <==> env.now - s.lastUpdated > UpdateThreshold || p.None?
    ensures o.kept.None? ==> o.deactivated && !o.scheduled && o.actions == [DeactivateEvent(u)] + CloseMenu(s)
    ensures o.kept.Some? ==> !o.deactivated && o.kept.value == s.(menu := o.kept.value.menu)
    ensures o.kept.Some? && s.menu.Some? ==>
      !o.scheduled && |o.actions| == 1 &&
      (u in env.menuCloses <==> o.kept.value.menu.None?) &&
      (u in env.menuCloses ==> o.actions == [MenuClose(u, s.menu.value)]) &&
      (u !in env.menuCloses ==>
         o.actions == [MenuDisplay(u, s.menu.value, CursorByte(s.cursorX), CursorByte(s.cursorY))] &&
         o.kept.value.menu == s.menu)
    ensures o.scheduled <==> o.kept.Some? && s.menu.None? && Resolve(s.minimap, env.plugin).Some?
    ensures o.kept.Some? && s.menu.None? ==> o.kept.value == s && |o.actions| == 1
    ensures o.kept.Some? && s.menu.None? && Resolve(s.minimap, env.plugin).None? ==> o.actions == [MissingMapSent(u)]
    ensures o.scheduled ==>
      var m := Resolve(s.minimap, env.plugin).value;
      var v := p.value.viewer;
      o.actions == [FrameSubmitted(u, m.id,
                                   FirstPresent([m.overlay, v.overlay, env.plugin.overlay]),
                                   FirstPresent([m.background, v.background, env.plugin.background]))]
  {
    if env.now - s.lastUpdated > UpdateThreshold then Retire(u, s)
    else if p.None? then Retire(u, s)
    else if s.menu.Some? then
      var menu := s.menu.value;
      if u in env.menuCloses then
        Outcome(Some(s.(menu := None)), false, [MenuClose(u, menu)], false)
      else
        Outcome(Some(s), false, [MenuDisplay(u, menu, CursorByte(s.cursorX), CursorByte(s.cursorY))], false)
    else
      var found := Resolve(s.minimap, env.plugin);
      if found.None? then
        Outcome(Some(s), false, [MissingMapSent(u)], false)
      else
        var m := found.value;
        var viewer := p.value.viewer;
        var overlay := PickImage(m.overlay, viewer.overlay, env.plugin.overlay);
        var background := PickImage(m.background, viewer.background, env.plugin.background);
        Outcome(Some(s), false, [FrameSubmitted(u, m.id, overlay, background)], true)
  }

  /** The two passes over the settings map that share one loop shape. */
  datatype Phase = Sweeping | Updating

  function Entry(phase: Phase, u: Uuid, s: Setting, id: int, mapId: Option<string>, env: Env): Outcome
  {
    match phase
    case Sweeping => SweepEntry(u, s, Lookup(env.players, u), id, mapId, env)
    case Updating => UpdateEntry(u, s, Lookup(env.players, u), env)
  }

  /** The outcome of the pass for the entry filed under `u` in `st`. */
  function EntryOf(phase: Phase, st: State, u: Uuid, env: Env): Outcome
    requires u in st.settings
  {
    Entry(phase, u, st.settings[u], st.id, st.mapId, env)
  }

  /** One iteration of a pass. The update pass first saves every visited
      entry's zoom into `scales`; `deactivate` saves it too. Also returns
      whether a frame task was submitted. */
  function Step(phase: Phase, st: State, u: Uuid, env: Env): (State, bool)
  {
    if u !in st.settings then (st, false)
    else
      var s := st.settings[u];
      var o := EntryOf(phase, st, u, env);
      var scales := if phase == Updating then st.scales[u := s.zoomscale] else st.scales;
      var scales' := if o.deactivated then scales[s.uuid := s.zoomscale] else scales;
      var settings := if o.kept.Some? then st.settings[u := o.kept.value] else st.settings - {u};
      (st.(scales := scales', settings := settings, log := st.log + o.actions), o.scheduled)
  }

  /** A pass visiting `order` (the settings map's iteration order) front to
      back; also returns the viewers whose frame task was submitted, in order. */
  function Pass(phase: Phase, st: State, order: seq<Uuid>, env: Env): (r: (State, seq<Uuid>))
    ensures r.0.id == st.id && r.0.mapId == st.mapId && r.0.tick == st.tick
  {
    if order == [] then (st, [])
    else
      var n := |order| - 1;
      var mid := Pass(phase, st, order[..n], env);
      var next := Step(phase, mid.0, order[n], env);
      (next.0, mid.1 + (if next.1 then [order[n]] else []))
  }

  /** The liveness sweep of `tickRender`. */
  function Sweep(st: State, order: seq<Uuid>, env: Env): State
  {
    Pass(Sweeping, st, order, env).0
  }

  /** The packets sent after joining the frame tasks, one per task, in order. */
  function Sends(tasks: seq<Uuid>): (r: seq<Action>)
    ensures |r| == |tasks|
    ensures forall i :: 0 <= i < |tasks| ==> r[i] == FrameSent(tasks[i])
  {
    seq(|tasks|, i requires 0 <= i < |tasks| => FrameSent(tasks[i]))
  }

  /** The end of `update`: every remaining entry loses its interaction. */
  function ClearInteractions(settings: map<Uuid, Setting>): (r: map<Uuid, Setting>)
    ensures r.Keys == settings.Keys
    ensures forall u :: u in r ==> r[u] == settings[u].(interaction := None)
  {
    map u | u in settings :: settings[u].(interaction := None)
  }

  /** `update`: the per-entry pass, the fan-in sends, and the clearing of
      interactions. */
  function Update(st: State, order: seq<Uuid>, env: Env): (r: State)
    ensures r.id == st.id && r.mapId == st.mapId && r.tick == st.tick
    ensures forall u :: u in r.settings ==> r.settings[u].interaction.None?
  {
    var (mid, tasks) := Pass(Updating, st, order, env);
    mid.(log := mid.log + Sends(tasks), settings := ClearInteractions(mid.settings))
  }

  /** The entries of `order` still present in `keys`, in the same order: the
      iteration order of a hash map after removals. */
  function Survivors(order: seq<Uuid>, keys: set<Uuid>): (r: seq<Uuid>)
    ensures forall u :: u in r <==> u in order && u in keys
  {
    if order == [] then []
    else
      var n := |order| - 1;
      Survivors(order[..n], keys) + (if order[n] in keys then [order[n]] else [])
  }

  /** `tickRender`. When the server is overloaded nothing changes. Otherwise
      the tick counter grows by one, and only when its old value is a multiple
      of the render delay do the sweep and the update pass run. */
  function TickRender(st: State, order: seq<Uuid>, env: Env): (r: State)
    requires env.plugin.overloaded || env.plugin.renderDelay != 0
    ensures env.plugin.overloaded ==> r == st
    ensures !env.plugin.overloaded ==> r.tick == st.tick + 1 && r.id == st.id && r.mapId == st.mapId
    ensures !env.plugin.overloaded && st.tick % env.plugin.renderDelay != 0 ==> r == st.(tick := st.tick + 1)
  {
    if env.plugin.overloaded then st
    else if st.tick % env.plugin.renderDelay != 0 then st.(tick := st.tick + 1)
    else
      var swept := Sweep(st.(tick := st.tick + 1), order, env);
      Update(swept, Survivors(order, swept.settings.Keys), env)
  }

  /** The entry `render` creates for a viewer it first sees holding the map. */
  function NewSetting(st: State, u: Uuid, p: Player, now: int, plugin: Plugin): Setting
  {
    var mainHand := InMainHand(p, st.id);
    Setting(u, now, p.location, if u in st.scales then st.scales[u] else DefaultZoom, st.mapId,
            RotationFor(st.mapId, plugin, p), mainHand,
            0.0, 0.0, if mainHand then NormalizeYaw(p.location.yaw) else 0.0, None, None)
  }

  /** `render` for the map with id `viewId` and the online player `p` with
      UUID `u`. Not holding the map removes the viewer, deactivating it only if
      it was tracked. Holding it when untracked creates exactly one entry whose
      zoom is the remembered scale (1 if none), with the cursor at the centre
      and, in the main hand, the tracked heading at the player's yaw in
      [0, 360). Holding it when tracked changes nothing but the map id. */
  function Render(st: State, viewId: int, u: Uuid, p: Player, now: int, plugin: Plugin): (r: State)
    ensures r.id == viewId && r.mapId == st.mapId && r.tick == st.tick
    ensures !InHand(p, viewId) ==>
      && r.settings == st.settings - {u}
      && (u in st.settings ==>
            var s := st.settings[u];
            r.scales == st.scales[s.uuid := s.zoomscale] && r.log == st.log + [DeactivateEvent(u)] + CloseMenu(s))
      && (u !in st.settings ==> r.scales == st.scales && r.log == st.log)
    ensures InHand(p, viewId) && u !in st.settings ==>
      && r.settings.Keys == st.settings.Keys + {u}
      && (forall v :: v in st.settings ==> r.settings[v] == st.settings[v])
      && r.scales == st.scales
      && r.log == st.log + [ActivateEvent(u, InMainHand(p, viewId))]
      && var s := r.settings[u];
         && s.uuid == u && s.lastUpdated == now && s.minimap == st.mapId
         && s.zoomscale == (if u in st.scales then st.scales[u] else DefaultZoom)
         && s.mainhand == InMainHand(p, viewId)
         && s.rotating == RotationFor(st.mapId, plugin, p) && s.location == p.location
         && s.menu.None? && s.interaction.None?
         && s.cursorX == 0.0 && s.cursorY == 0.0
         && (s.mainhand ==> s.cursorCenter == Mod360(p.location.yaw))
    ensures InHand(p, viewId) && u in st.settings ==> r == st.(id := viewId)
  {
    var st1 := st.(id := viewId);
    if !InHand(p, viewId) then
      if u in st1.settings then
        var s := st1.settings[u];
        st1.(settings := st1.settings - {u}, scales := st1.scales[s.uuid := s.zoomscale],
             log := st1.log + [DeactivateEvent(u)] + CloseMenu(s))
      else st1.(settings := st1.settings - {u})
    else if u !in st1.settings then
      NormalizeYawIsMod360(p.location.yaw);
      st1.(settings := st1.settings[u := NewSetting(st1, u, p, now, plugin)],
           log := st1.log + [ActivateEvent(u, InMainHand(p, viewId))])
    else st1
  }

  /** `getScale`: the zoom of a tracked viewer, nothing for an untracked one. */
  function GetScale(st: State, u: Uuid): Option<real>
  {
    if u in st.settings then Some(st.settings[u].zoomscale) else None
  }

  /** `setScale`: a tracked entry takes the zoom at once, and the zoom is
      remembered in `scales` whether or not the viewer is tracked. */
  function SetScale(st: State, u: Uuid, blocksPerPixel: real): State
  {
    var settings := if u in st.settings then st.settings[u := st.settings[u].(zoomscale := blocksPerPixel)]
                    else st.settings;
    st.(settings := settings, scales := st.scales[u := blocksPerPixel])
  }

  /** `getMenu`. */
  function GetMenu(st: State, u: Uuid): Option<MenuId>
  {
    if u in st.settings then st.settings[u].menu else None
  }

  /** `setMapMenu`: for a tracked viewer the old menu, if any, is closed and the
      new one (possibly none, possibly the same one) installed. */
  function SetMapMenu(st: State, u: Uuid, menu: Option<MenuId>): State
  {
    if u !in st.settings then st
    else
      var s := st.settings[u];
      var closes := if s.menu.Some? then [MenuClose(u, s.menu.value)] else [];
      st.(settings := st.settings[u := s.(menu := menu)], log := st.log + closes)
  }

  /** `interact` for a tracked viewer: the interaction is stored; with a menu
      open, the interact event is fired, and unless it was `cancelled` the
      menu's `interact` runs, closing the menu when it answers `done`. */
  function Interact(st: State, u: Uuid, interaction: Interaction, cancelled: bool, done: bool): State
  {
    if u !in st.settings then st
    else
      var s := st.settings[u].(interaction := Some(interaction));
      if s.menu.None? then st.(settings := st.settings[u := s])
      else
        var menu := s.menu.value;
        var fired := st.log + [InteractEvent(u, menu, interaction)];
        if !cancelled && done then
          st.(settings := st.settings[u := s.(menu := None)], log := fired + [MenuClose(u, menu)])
        else st.(settings := st.settings[u := s], log := fired)
  }

  function MinimapId(m: Option<Minimap>): Option<string>
  {
    if m.Some? then Some(m.value.id) else None
  }

  /** `setMinimap`: every tracked entry and the renderer itself switch to the
      new minimap, or to none. */
  function SetMinimap(st: State, m: Option<Minimap>): State
  {
    var settings := map u | u in st.settings :: st.settings[u].(minimap := MinimapId(m));
    st.(settings := settings, mapId := MinimapId(m))
  }

  /** `setPlayerMap` with a present minimap: a tracked entry switches to it and
      takes its default zoom; the answer says whether the viewer was tracked. */
  function SetPlayerMap(st: State, u: Uuid, m: Minimap): (State, bool)
  {
    if u !in st.settings then (st, false)
    else (st.(settings := st.settings[u := st.settings[u].(minimap := Some(m.id), zoomscale := m.defaultZoom)]), true)
  }

  /** `unregisterPlayer`: the entry is dropped, without `deactivate`. */
  function UnregisterPlayer(st: State, u: Uuid): State
  {
    st.(settings := st.settings - {u})
  }
}
