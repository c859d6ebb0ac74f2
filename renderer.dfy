/** `CartographerRenderer`: the renderer object whose maps of viewers, zoom
    memory and tick counter are updated in place by the server's callbacks.
    Each method is proved to leave the object in exactly the state the
    corresponding function of module `Scheduler` computes from the old state. */
module Renderer {
  import opened Common
  import opened Aim
  import opened Fallback
  import opened Scheduler
  import opened SchedulerProofs

  /** A set that is not empty has a member to pick. */
  lemma Inhabited(s: set<Uuid>)
    requires s != {}
    ensures exists v :: v in s
  {
    if forall v :: v !in s {
      assert false;
    }
  }

  class CartographerRenderer {
    /** The id of the map item this renderer draws, as last seen by `render`. */
    var id: int
    /** The minimap shown to new viewers. */
    var mapId: Option<string>
    var tick: nat
    /** The zoom each viewer had when it last stopped viewing, or last set. */
    var scales: map<Uuid, real>
    /** The viewers currently tracked. */
    var settings: map<Uuid, Setting>
    /** Events fired, menu callbacks made and packets sent, in order. */
    var log: seq<Action>

    function Snapshot(): State
      reads this
    {
      State(id, mapId, tick, scales, settings, log)
    }

    ghost predicate Valid()
      reads this
    {
      WellFormed(Snapshot())
    }

    /** A renderer for a minimap that may be absent; it tracks nobody yet. */
    constructor(m: Option<Minimap>)
      ensures Snapshot() == State(0, MinimapId(m), 0, map[], map[], [])
      ensures Valid()
    {
      id := 0;
      mapId := None;
      if m.Some? {
        mapId := Some(m.value.id);
      }
      tick := 0;
      scales := map[];
      settings := map[];
      log := [];
    }

    /** `PlayerSetting.deactivate`: remember the entry's zoom, then close its
        menu if one is open. Returns the entry as it is afterwards. */
    method Deactivate(s: Setting) returns (s': Setting)
      modifies this
      ensures s' == s.(menu := None)
      ensures Snapshot() == old(Snapshot()).(scales := old(scales)[s.uuid := s.zoomscale],
                                             log := old(log) + CloseMenu(s))
    {
      scales := scales[s.uuid := s.zoomscale];
      s' := s;
      if s.menu.Some? {
        log := log + [MenuClose(s.uuid, s.menu.value)];
        s' := s'.(menu := None);
      }
    }

    /** The removal path shared by the sweep and the update pass. */
    method Retire(u: Uuid, s: Setting)
      requires u in settings
      modifies this
      ensures Snapshot() == old(Snapshot()).(settings := old(settings) - {u},
                                             scales := old(scales)[s.uuid := s.zoomscale],
                                             log := old(log) + ([DeactivateEvent(u)] + CloseMenu(s)))
    {
      log := log + [DeactivateEvent(u)];
      var _ := Deactivate(s);
      settings := settings - {u};
    }

    /** One iteration of the `tickRender` sweep. */
    method SweepOne(u: Uuid, env: Env)
      requires u in settings
      modifies this
      ensures Snapshot() == Step(Sweeping, old(Snapshot()), u, env).0
    {
      var setting := settings[u];
      if u !in env.players {
        Retire(u, setting);
        return;
      }
      var player := env.players[u];
      var inHand := false;
      var mainHand := false;
      if player.mainMap == Some(id) {
        inHand := true;
        mainHand := true;
      }
      if player.offMap == Some(id) {
        inHand := true;
      }
      if !inHand {
        Retire(u, setting);
        return;
      }
      KeepViewing(u, player, mainHand, env);
    }

    /** The sweep's path for a viewer still holding the map: refresh its
        rotation, location and cursor, and switch hands if it did. */
    method KeepViewing(u: Uuid, player: Player, mainHand: bool, env: Env)
      requires u in settings && u in env.players && env.players[u] == player
      requires InHand(player, id) && mainHand == InMainHand(player, id)
      modifies this
      ensures Snapshot() == Step(Sweeping, old(Snapshot()), u, env).0
    {
      var setting := settings[u];
      var rotating := RotationFor(mapId, env.plugin, player);
      if mainHand {
        setting := Track(setting, player.location);
      }
      setting := setting.(rotating := rotating, location := player.location);
      if setting.mainhand != mainHand {
        log := log + [DeactivateEvent(u)];
        setting := Deactivate(setting);
        setting := setting.(mainhand := mainHand);
        log := log + [ActivateEvent(u, mainHand)];
      }
      setting := setting.(lastUpdated := env.now);
      settings := settings[u := setting];
    }

    /** One iteration of `update`; says whether a frame task was submitted. */
    method UpdateOne(u: Uuid, env: Env) returns (scheduled: bool)
      requires u in settings
      modifies this
      ensures (Snapshot(), scheduled) == Step(Updating, old(Snapshot()), u, env)
    {
      var setting := settings[u];
      scales := scales[u := setting.zoomscale];
      scheduled := false;
      if env.now - setting.lastUpdated > UpdateThreshold {
        Retire(u, setting);
        return;
      }
      if u !in env.players {
        Retire(u, setting);
        return;
      }
      var player := env.players[u];
      if setting.menu.Some? {
        var menu := setting.menu.value;
        if u in env.menuCloses {
          log := log + [MenuClose(u, menu)];
          settings := settings[u := setting.(menu := None)];
        } else {
          var x := CursorByte(setting.cursorX);
          var y := CursorByte(setting.cursorY);
          log := log + [MenuDisplay(u, menu, x, y)];
          assert settings[u := setting] == settings;
        }
        return;
      }
      var found := Resolve(setting.minimap, env.plugin);
      if found.None? {
        log := log + [MissingMapSent(u)];
        assert settings[u := setting] == settings;
        return;
      }
      var m := found.value;
      var viewer := player.viewer;
      var overlay := PickImage(m.overlay, viewer.overlay, env.plugin.overlay);
      var background := PickImage(m.background, viewer.background, env.plugin.background);
      log := log + [FrameSubmitted(u, m.id, overlay, background)];
      scheduled := true;
      assert settings[u := setting] == settings;
    }

    /** The per-entry loop of `update`, in the iteration order `order`;
        returns the viewers whose frame tasks were submitted, in order. */
    method UpdateEntries(order: seq<Uuid>, env: Env) returns (tasks: seq<Uuid>)
      requires Valid() && Enumerates(order, settings.Keys)
      modifies this
      ensures (Snapshot(), tasks) == Pass(Updating, old(Snapshot()), order, env)
    {
      ghost var st := Snapshot();
      tasks := [];
      for i := 0 to |order|
        invariant Snapshot() == Pass(Updating, st, order[..i], env).0
        invariant tasks == Pass(Updating, st, order[..i], env).1
      {
        PassLeavesUnvisited(Updating, st, order, i, env);
        assert order[..i + 1][..i] == order[..i];
        ghost var before := Snapshot();
        var scheduled := UpdateOne(order[i], env);
        assert (Snapshot(), scheduled) == Step(Updating, before, order[i], env);
        if scheduled {
          tasks := tasks + [order[i]];
        }
      }
      assert order[..|order|] == order;
    }

    /** The fan-in of `update`: one frame packet per submitted task, in
        submission order. */
    method SendFrames(tasks: seq<Uuid>)
      modifies this
      ensures Snapshot() == old(Snapshot()).(log := old(log) + Sends(tasks))
    {
      ghost var mid := Snapshot();
      for k := 0 to |tasks|
        invariant Snapshot() == mid.(log := mid.log + Sends(tasks[..k]))
      {
        assert Sends(tasks[..k + 1]) == Sends(tasks[..k]) + [FrameSent(tasks[k])];
        log := log + [FrameSent(tasks[k])];
      }
      assert tasks[..|tasks|] == tasks;
    }

    /** The last step of `update`: every tracked viewer's interaction is
        cleared, one entry at a time. */
    method ClearAll()
      modifies this
      ensures Snapshot() == old(Snapshot()).(settings := ClearInteractions(old(settings)))
    {
      ghost var mid := Snapshot();
      var pending := settings.Keys;
      while pending != {}
        invariant pending <= settings.Keys && settings.Keys == mid.settings.Keys
        invariant forall u :: u in settings ==>
          settings[u] == if u in pending then mid.settings[u] else mid.settings[u].(interaction := None)
        invariant Snapshot() == mid.(settings := settings)
        decreases pending
      {
        Inhabited(pending);
        var v :| v in pending;
        settings := settings[v := settings[v].(interaction := None)];
        pending := pending - {v};
      }
      assert forall v :: v in settings ==> v !in pending;
      assert settings.Keys == ClearInteractions(mid.settings).Keys;
      assert forall v :: v in settings ==> settings[v] == ClearInteractions(mid.settings)[v];
      assert settings == ClearInteractions(mid.settings);
    }

    /** `update`: one pass over the tracked viewers in the map's iteration
        order `order`, then the submitted frames are sent in submission order,
        then every interaction is cleared. */
    method Update(order: seq<Uuid>, env: Env)
      requires Valid() && Enumerates(order, settings.Keys)
      modifies this
      ensures Snapshot() == Scheduler.Update(old(Snapshot()), order, env)
      ensures Valid()
    {
      ghost var st := Snapshot();
      var tasks := UpdateEntries(order, env);
      SendFrames(tasks);
      ClearAll();
      UpdatePerViewer(st, order, env);
    }

    /** The liveness sweep of `tickRender`, in the iteration order `order`. */
    method Sweep(order: seq<Uuid>, env: Env)
      requires Valid() && Enumerates(order, settings.Keys)
      modifies this
      ensures Snapshot() == Scheduler.Sweep(old(Snapshot()), order, env)
      ensures Valid()
      ensures settings.Keys <= old(settings).Keys
    {
      ghost var st := Snapshot();
      for i := 0 to |order|
        invariant Snapshot() == Pass(Sweeping, st, order[..i], env).0
      {
        PassLeavesUnvisited(Sweeping, st, order, i, env);
        assert order[..i + 1][..i] == order[..i];
        SweepOne(order[i], env);
      }
      assert order[..|order|] == order;
      SweepShrinks(st, order, env);
    }

    /** `tickRender`, run by the server scheduler every tick; `order` is the
        iteration order of `settings`. */
    method TickRender(order: seq<Uuid>, env: Env)
      requires Valid() && Enumerates(order, settings.Keys)
      requires env.plugin.overloaded || env.plugin.renderDelay != 0
      modifies this
      ensures Snapshot() == Scheduler.TickRender(old(Snapshot()), order, env)
      ensures Valid()
    {
      if env.plugin.overloaded {
        return;
      }
      var due := tick % env.plugin.renderDelay == 0;
      tick := tick + 1;
      if !due {
        return;
      }
      Sweep(order, env);
      var rest := Survivors(order, settings.Keys);
      SurvivorsEnumerate(order, settings.Keys);
      Update(rest, env);
    }

    /** `render`, called by the server when player `u` (online as `p`) is
        sent the map view with id `viewId`. */
    method Render(viewId: int, u: Uuid, p: Player, now: int, plugin: Plugin)
      requires Valid()
      modifies this
      ensures Snapshot() == Scheduler.Render(old(Snapshot()), viewId, u, p, now, plugin)
      ensures Valid()
    {
      id := viewId;
      var inHand := false;
      var mainHand := false;
      if p.mainMap == Some(id) {
        inHand := true;
        mainHand := true;
      }
      if p.offMap == Some(id) {
        inHand := true;
      }
      if !inHand {
        var removed := if u in settings then Some(settings[u]) else None;
        settings := settings - {u};
        if removed.Some? {
          log := log + [DeactivateEvent(u)];
          var _ := Deactivate(removed.value);
        }
        return;
      }
      var rotating := RotationFor(mapId, plugin, p);
      if u !in settings {
        var zoom := if u in scales then scales[u] else DefaultZoom;
        var setting := Setting(u, now, p.location, zoom, mapId, rotating, mainHand, 0.0, 0.0, 0.0, None, None);
        if mainHand {
          setting := setting.(cursorX := 0.0, cursorY := 0.0, cursorCenter := NormalizeYaw(p.location.yaw));
        }
        settings := settings[u := setting];
        log := log + [ActivateEvent(u, mainHand)];
      }
    }

    /** `getScale`, as the raw zoom. */
    method GetScale(u: Uuid) returns (r: Option<real>)
      ensures r == Scheduler.GetScale(Snapshot(), u)
    {
      r := None;
      if u in settings {
        r := Some(settings[u].zoomscale);
      }
    }

    /** `setScale(uuid, blocksPerPixel)`. */
    method SetScale(u: Uuid, blocksPerPixel: real)
      requires Valid()
      modifies this
      ensures Snapshot() == Scheduler.SetScale(old(Snapshot()), u, blocksPerPixel)
      ensures Valid()
    {
      if u in settings {
        settings := settings[u := settings[u].(zoomscale := blocksPerPixel)];
      }
      scales := scales[u := blocksPerPixel];
    }

    /** `setMapMenu`; `menu` is `None` for null. */
    method SetMapMenu(u: Uuid, menu: Option<MenuId>)
      requires Valid()
      modifies this
      ensures Snapshot() == Scheduler.SetMapMenu(old(Snapshot()), u, menu)
      ensures Valid()
    {
      if u in settings {
        var setting := settings[u];
        if setting.menu.Some? {
          log := log + [MenuClose(u, setting.menu.value)];
        }
        settings := settings[u := setting.(menu := menu)];
      }
    }

    method GetMenu(u: Uuid) returns (r: Option<MenuId>)
      ensures r == Scheduler.GetMenu(Snapshot(), u)
    {
      r := None;
      if u in settings {
        r := settings[u].menu;
      }
    }

    /** `interact`: `cancelled` is whether a listener cancelled the interact
        event, `done` what the menu's `interact` answers. */
    method Interact(u: Uuid, interaction: Interaction, cancelled: bool, done: bool)
      requires Valid()
      modifies this
      ensures Snapshot() == Scheduler.Interact(old(Snapshot()), u, interaction, cancelled, done)
      ensures Valid()
    {
      if u in settings {
        var setting := settings[u].(interaction := Some(interaction));
        settings := settings[u := setting];
        if setting.menu.Some? {
          var menu := setting.menu.value;
          log := log + [InteractEvent(u, menu, interaction)];
          if !cancelled {
            if done {
              log := log + [MenuClose(u, menu)];
              settings := settings[u := setting.(menu := None)];
            }
          }
        }
      }
    }

    method IsViewing(u: Uuid) returns (r: bool)
      ensures r <==> u in settings
    {
      r := u in settings;
    }

    /** `unregisterPlayer`. */
    method UnregisterPlayer(u: Uuid)
      requires Valid()
      modifies this
      ensures Snapshot() == Scheduler.UnregisterPlayer(old(Snapshot()), u)
      ensures Valid()
    {
      settings := settings - {u};
    }

    /** `getMinimap`: the minimap the renderer shows, if it still exists. */
    method GetMinimap(plugin: Plugin) returns (r: Option<Minimap>)
      ensures r.Some? <==> mapId.Some? && mapId.value in plugin.minimaps
      ensures r.Some? ==> r.value == plugin.minimaps[mapId.value]
    {
      r := None;
      if mapId.Some? && mapId.value in plugin.minimaps {
        r := Some(plugin.minimaps[mapId.value]);
      }
    }

    /** `setMinimap`: retarget every tracked viewer, then the renderer. */
    method SetMinimap(m: Option<Minimap>)
      requires Valid()
      modifies this
      ensures Snapshot() == Scheduler.SetMinimap(old(Snapshot()), m)
      ensures Valid()
    {
      var pending := settings.Keys;
      while pending != {}
        invariant pending <= settings.Keys && settings.Keys == old(settings).Keys
        invariant forall u :: u in settings ==>
          settings[u] == if u in pending then old(settings)[u] else old(settings)[u].(minimap := MinimapId(m))
        invariant Snapshot() == old(Snapshot()).(settings := settings)
        decreases pending
      {
        Inhabited(pending);
        var v :| v in pending;
        var setting := settings[v];
        if m.None? {
          setting := setting.(minimap := None);
        } else {
          setting := setting.(minimap := Some(m.value.id));
        }
        settings := settings[v := setting];
        pending := pending - {v};
      }
      assert forall v :: v in settings ==> v !in pending;
      assert settings.Keys == Scheduler.SetMinimap(old(Snapshot()), m).settings.Keys;
      assert forall v :: v in settings ==> settings[v] == Scheduler.SetMinimap(old(Snapshot()), m).settings[v];
      assert settings == Scheduler.SetMinimap(old(Snapshot()), m).settings;
      mapId := MinimapId(m);
    }

    /** `setPlayerMap` with a present minimap. */
    method SetPlayerMap(u: Uuid, m: Minimap) returns (r: bool)
      requires Valid()
      modifies this
      ensures (Snapshot(), r) == Scheduler.SetPlayerMap(old(Snapshot()), u, m)
      ensures Valid()
    {
      if u in settings {
        var setting := settings[u];
        setting := setting.(minimap := Some(m.id));
        setting := setting.(zoomscale := m.defaultZoom);
        settings := settings[u := setting];
        return true;
      }
      return false;
    }
  }
}
