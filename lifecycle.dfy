/** Properties of the renderer's entry points taken together: zoom memory
    across deactivation, and the rule that a menu leaves a viewer only after
    its `onClose` has been called. */
module Lifecycle {
  import opened Common
  import opened Scheduler
  import opened SchedulerProofs

  /** Between `st` and `r`, every open menu that a viewer loses, because its
      entry was removed or its menu replaced, has had `onClose` called for it:
      the viewer's part of the log only grows, and what it gains holds that
      menu's close. */
  ghost predicate ClosesWhatItDrops(st: State, r: State)
  {
    forall u :: u in st.settings && st.settings[u].menu.Some? ==>
      && Project(st.log, u) <= Project(r.log, u)
      && ((u !in r.settings || r.settings[u].menu != st.settings[u].menu) ==>
            ClosedBetween(st, r, u, st.settings[u].menu.value))
  }

  /** Appending actions of one viewer extends that viewer's part of the log by
      exactly those actions and leaves everybody else's alone. */
  lemma AppendOwn(log: seq<Action>, acts: seq<Action>, u: Uuid, v: Uuid)
    requires forall a :: a in acts ==> a.uuid == u
    ensures Project(log + acts, v) == Project(log, v) + (if v == u then acts else [])
  {
    ProjectAppend(log, acts, v);
    ProjectOwn(acts, u, v);
  }

  /** One entry of either pass either emits the close of the entry's open
      menu or leaves the entry with that menu still open. */
  lemma EntryMenu(phase: Phase, st: State, u: Uuid, env: Env)
    requires WellFormed(st) && u in st.settings && st.settings[u].menu.Some?
    ensures var o := EntryOf(phase, st, u, env);
      MenuClose(u, st.settings[u].menu.value) in o.actions || (o.kept.Some? && o.kept.value.menu == st.settings[u].menu)
  {
  }

  /** A zoom set while the viewer is not tracked is the zoom it gets when it
      next picks up the map; a tracked viewer takes it at once. */
  lemma SetScaleRemembered(st: State, u: Uuid, blocksPerPixel: real, viewId: int, p: Player, now: int, plugin: Plugin)
    ensures GetScale(SetScale(st, u, blocksPerPixel), u) == if u in st.settings then Some(blocksPerPixel) else None
    ensures ClosesWhatItDrops(st, SetScale(st, u, blocksPerPixel))
    ensures u !in st.settings && InHand(p, viewId) ==>
      GetScale(Render(SetScale(st, u, blocksPerPixel), viewId, u, p, now, plugin), u) == Some(blocksPerPixel)
  {
  }

  /** Putting the map away and picking it up again restores the zoom the viewer
      had, with no menu open. */
  lemma {:induction false} ZoomSurvivesReactivation(st: State, viewId: int, u: Uuid, away: Player, back: Player,
                                                   now: int, later: int, plugin: Plugin)
    requires WellFormed(st) && u in st.settings
    requires !InHand(away, viewId) && InHand(back, viewId)
    ensures var r := Render(Render(st, viewId, u, away, now, plugin), viewId, u, back, later, plugin);
            GetScale(r, u) == GetScale(st, u) && GetMenu(r, u).None?
  {
    var mid := Render(st, viewId, u, away, now, plugin);
    assert u !in mid.settings;
    assert mid.scales[u] == st.settings[u].zoomscale;
  }

  /** `render` closes the menu of a viewer it deactivates, and affects no
      other viewer's part of the log. */
  lemma {:induction false} RenderClosesWhatItDrops(st: State, viewId: int, u: Uuid, p: Player, now: int, plugin: Plugin)
    requires WellFormed(st)
    ensures ClosesWhatItDrops(st, Render(st, viewId, u, p, now, plugin))
    ensures forall v :: v != u ==> Project(Render(st, viewId, u, p, now, plugin).log, v) == Project(st.log, v)
  {
    var r := Render(st, viewId, u, p, now, plugin);
    var acts := r.log[|st.log|..];
    assert r.log == st.log + acts;
    forall v
      ensures Project(r.log, v) == Project(st.log, v) + (if v == u then acts else [])
    {
      AppendOwn(st.log, acts, u, v);
    }
  }

  /** `setMapMenu` on a tracked viewer installs the new menu after one
      `onClose` of the old one, if any; on an untracked viewer it does
      nothing. */
  lemma {:induction false} SetMapMenuClosesOld(st: State, u: Uuid, menu: Option<MenuId>)
    requires WellFormed(st)
    ensures var r := SetMapMenu(st, u, menu);
      && ClosesWhatItDrops(st, r)
      && (u !in st.settings ==> r == st)
      && (u in st.settings ==>
            && GetMenu(r, u) == menu
            && Project(r.log, u) == Project(st.log, u) +
                 (if GetMenu(st, u).Some? then [MenuClose(u, GetMenu(st, u).value)] else []))
      && (forall v :: v != u ==> Project(r.log, v) == Project(st.log, v))
  {
    var r := SetMapMenu(st, u, menu);
    var acts := r.log[|st.log|..];
    assert r.log == st.log + acts;
    forall v
      ensures Project(r.log, v) == Project(st.log, v) + (if v == u then acts else [])
    {
      AppendOwn(st.log, acts, u, v);
    }
  }

  /** `interact` on a tracked viewer records the interaction and keeps its
      menu unless the interact event was not cancelled and the menu answered
      done; an untracked viewer is ignored. */
  lemma InteractOutcome(st: State, u: Uuid, interaction: Interaction, cancelled: bool, done: bool)
    ensures var r := Interact(st, u, interaction, cancelled, done);
      && (u !in st.settings ==> r == st)
      && (u in st.settings ==>
            && r.settings.Keys == st.settings.Keys
            && r.settings[u].interaction == Some(interaction)
            && (GetMenu(r, u).None? <==> GetMenu(st, u).None? || (!cancelled && done))
            && (GetMenu(r, u).Some? ==> GetMenu(r, u) == GetMenu(st, u)))
      && (forall v :: v in st.settings && v != u ==> r.settings[v] == st.settings[v])
  {
  }

  /** With a menu open, `interact` fires the interact event and then, exactly
      when the event was not cancelled and the menu answered done, calls the
      menu's `onClose`; no other viewer's part of the log changes. */
  lemma {:induction false} InteractLog(st: State, u: Uuid, interaction: Interaction, cancelled: bool, done: bool)
    requires WellFormed(st)
    ensures var r := Interact(st, u, interaction, cancelled, done);
      && ClosesWhatItDrops(st, r)
      && (GetMenu(st, u).Some? ==>
            var m := GetMenu(st, u).value;
            Project(r.log, u) == Project(st.log, u) + [InteractEvent(u, m, interaction)] +
                                 (if !cancelled && done then [MenuClose(u, m)] else []))
      && (forall v :: v != u || GetMenu(st, u).None? ==> Project(r.log, v) == Project(st.log, v))
  {
    var r := Interact(st, u, interaction, cancelled, done);
    if GetMenu(st, u).Some? {
      var m := GetMenu(st, u).value;
      var acts := [InteractEvent(u, m, interaction)] + (if !cancelled && done then [MenuClose(u, m)] else []);
      assert r.log == st.log + acts;
      forall v
        ensures Project(r.log, v) == Project(st.log, v) + (if v == u then acts else [])
      {
        AppendOwn(st.log, acts, u, v);
      }
      if !cancelled && done {
        assert Project(r.log, u)[|Project(st.log, u)|..] == acts;
      }
    } else {
      assert r.log == st.log;
    }
  }

  /** The close of viewer `u`'s menu `m` is among what `r`'s log adds to
      `st`'s for that viewer. */
  ghost predicate ClosedBetween(st: State, r: State, u: Uuid, m: MenuId)
  {
    Project(st.log, u) <= Project(r.log, u) && MenuClose(u, m) in Project(r.log, u)[|Project(st.log, u)|..]
  }

  /** The sweep, for one viewer with an open menu: it closes the menu or
      keeps the entry with the menu open. */
  lemma SweepMenuFor(st: State, order: seq<Uuid>, env: Env, u: Uuid)
    requires WellFormed(st) && Enumerates(order, st.settings.Keys)
    requires u in st.settings && st.settings[u].menu.Some?
    ensures var r := Sweep(st, order, env);
      && Project(st.log, u) <= Project(r.log, u)
      && (ClosedBetween(st, r, u, st.settings[u].menu.value) || (u in r.settings && r.settings[u].menu == st.settings[u].menu))
  {
    SweepLogFor(st, order, env, u);
    SweepEntryFor(st, order, env, u);
    EntryMenu(Sweeping, st, u, env);
  }

  /** `update`, for one viewer with an open menu: it closes the menu or keeps
      the entry with the menu open. */
  lemma UpdateMenuFor(st: State, order: seq<Uuid>, env: Env, u: Uuid)
    requires WellFormed(st) && Enumerates(order, st.settings.Keys)
    requires u in st.settings && st.settings[u].menu.Some?
    ensures var r := Update(st, order, env);
      && Project(st.log, u) <= Project(r.log, u)
      && (ClosedBetween(st, r, u, st.settings[u].menu.value) || (u in r.settings && r.settings[u].menu == st.settings[u].menu))
  {
    UpdateLogPerViewer(st, order, env, u);
    UpdateEntryFor(st, order, env, u);
    EntryMenu(Updating, st, u, env);
    var o := EntryOf(Updating, st, u, env);
    var tail := o.actions + (if o.scheduled then [FrameSent(u)] else []);
    assert Project(Update(st, order, env).log, u)[|Project(st.log, u)|..] == tail;
  }

  /** What `b` adds to `a` or `c` adds to `b` is part of what `c` adds to
      `a`, when `a`, `b`, `c` extend one another. */
  lemma GainedExtends(a: seq<Action>, b: seq<Action>, c: seq<Action>, x: Action)
    requires a <= b <= c
    requires x in b[|a|..] || x in c[|b|..]
    ensures x in c[|a|..]
  {
    if x in b[|a|..] {
      var i :| 0 <= i < |b| - |a| && b[|a|..][i] == x;
      assert c[|a|..][i] == x;
    } else {
      var i :| 0 <= i < |c| - |b| && c[|b|..][i] == x;
      assert c[|a|..][i + |b| - |a|] == x;
    }
  }

  /** A close between `a` and `b` is also a close between `a` and any later
      `c`, and so is a close between `b` and `c`. */
  lemma ClosedBetweenExtends(a: State, b: State, c: State, u: Uuid, m: MenuId)
    requires Project(a.log, u) <= Project(b.log, u) <= Project(c.log, u)
    requires ClosedBetween(a, b, u, m) || ClosedBetween(b, c, u, m)
    ensures ClosedBetween(a, c, u, m)
  {
    GainedExtends(Project(a.log, u), Project(b.log, u), Project(c.log, u), MenuClose(u, m));
  }

  /** A full tick, for one viewer with an open menu: the sweep closes it or
      keeps it open, and then so does the update pass. */
  lemma {:induction false} TickRenderClosesFor(st: State, order: seq<Uuid>, env: Env, u: Uuid)
    requires WellFormed(st) && Enumerates(order, st.settings.Keys)
    requires !env.plugin.overloaded && env.plugin.renderDelay != 0
    requires st.tick % env.plugin.renderDelay == 0
    requires u in st.settings && st.settings[u].menu.Some?
    ensures var r := TickRender(st, order, env);
      && Project(st.log, u) <= Project(r.log, u)
      && ((u !in r.settings || r.settings[u].menu != st.settings[u].menu) ==>
            ClosedBetween(st, r, u, st.settings[u].menu.value))
  {
    var m := st.settings[u].menu.value;
    var st1 := st.(tick := st.tick + 1);
    var swept := Sweep(st1, order, env);
    var rest := Survivors(order, swept.settings.Keys);
    TickRenderParts(st, order, env);
    var r := Update(swept, rest, env);
    SweepMenuFor(st1, order, env, u);
    if u in swept.settings && swept.settings[u].menu == Some(m) {
      UpdateMenuFor(swept, rest, env, u);
      if u !in r.settings || r.settings[u].menu != Some(m) {
        ClosedBetweenExtends(st1, swept, r, u, m);
      }
    } else {
      UpdateLog(swept, rest, env, u);
      ClosedBetweenExtends(st1, swept, r, u, m);
    }
  }

  /** Every tick, skipped or not, drops no menu without its `onClose`. */
  lemma TickRenderClosesWhatItDrops(st: State, order: seq<Uuid>, env: Env)
    requires WellFormed(st) && Enumerates(order, st.settings.Keys)
    requires env.plugin.overloaded || env.plugin.renderDelay != 0
    ensures ClosesWhatItDrops(st, TickRender(st, order, env))
  {
    if !env.plugin.overloaded && st.tick % env.plugin.renderDelay == 0 {
      DueTickClosesWhatItDrops(st, order, env);
    }
  }

  /** A full tick that is not skipped drops no menu without its `onClose`. */
  lemma DueTickClosesWhatItDrops(st: State, order: seq<Uuid>, env: Env)
    requires WellFormed(st) && Enumerates(order, st.settings.Keys)
    requires !env.plugin.overloaded && env.plugin.renderDelay != 0
    requires st.tick % env.plugin.renderDelay == 0
    ensures ClosesWhatItDrops(st, TickRender(st, order, env))
  {
    forall u | u in st.settings && st.settings[u].menu.Some?
      ensures var r := TickRender(st, order, env);
        && Project(st.log, u) <= Project(r.log, u)
        && ((u !in r.settings || r.settings[u].menu != st.settings[u].menu) ==>
              ClosedBetween(st, r, u, st.settings[u].menu.value))
    {
      TickRenderClosesFor(st, order, env, u);
    }
  }

  /** `setMinimap` and `setPlayerMap` touch no menu and emit nothing;
      `setMinimap` points the renderer and every tracked viewer at the new
      minimap, `setPlayerMap` one tracked viewer, with that minimap's default
      zoom. */
  lemma Retargeting(st: State, m: Option<Minimap>, u: Uuid, mm: Minimap)
    ensures var r := SetMinimap(st, m);
      && ClosesWhatItDrops(st, r) && r.log == st.log && r.settings.Keys == st.settings.Keys
      && r.mapId == MinimapId(m)
      && (forall v :: v in r.settings ==> r.settings[v].minimap == r.mapId)
    ensures var (r, found) := SetPlayerMap(st, u, mm);
      && ClosesWhatItDrops(st, r) && r.log == st.log && r.settings.Keys == st.settings.Keys
      && (found <==> u in st.settings)
      && (found ==> r.settings[u].minimap == Some(mm.id) && GetScale(r, u) == Some(mm.defaultZoom))
      && (forall v :: v in st.settings && v != u ==> r.settings[v] == st.settings[v])
  {
  }

  /** `unregisterPlayer` stops tracking the viewer without `deactivate`: its
      zoom is not saved and an open menu gets no `onClose`. */
  lemma UnregisterSkipsDeactivate(st: State, u: Uuid)
    ensures var r := UnregisterPlayer(st, u);
      && u !in r.settings && r.settings == st.settings - {u}
      && r.scales == st.scales && r.log == st.log
      && (u in st.settings && st.settings[u].menu.Some? ==> !ClosesWhatItDrops(st, r))
  {
  }
}
