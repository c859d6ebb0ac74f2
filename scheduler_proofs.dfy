/** Properties of the renderer's passes stated viewer by viewer. A pass over
    the settings map treats every entry independently of the others: each
    entry's fate, its saved zoom and the part of the log that concerns its
    viewer depend only on that entry and the environment, whatever the hash
    map's iteration order. */
module SchedulerProofs {
  import opened Common
  import opened Aim
  import opened Scheduler

  /** The actions of `log` that concern viewer `u`, in order. */
  function Project(log: seq<Action>, u: Uuid): (r: seq<Action>)
    ensures |r| <= |log|
    ensures forall a :: a in r ==> a in log && a.uuid == u
  {
    if log == [] then []
    else
      var n := |log| - 1;
      Project(log[..n], u) + (if log[n].uuid == u then [log[n]] else [])
  }

  lemma {:induction false} ProjectAppend(a: seq<Action>, b: seq<Action>, u: Uuid)
    ensures Project(a + b, u) == Project(a, u) + Project(b, u)
  {
    if b == [] {
      assert a + b == a;
    } else {
      var n := |b| - 1;
      assert (a + b)[..|a + b| - 1] == a + b[..n];
      assert (a + b)[|a + b| - 1] == b[n];
      ProjectAppend(a, b[..n], u);
    }
  }

  /** Actions that all concern `u` are all of `u`'s part and none of anyone else's. */
  lemma {:induction false} ProjectOwn(acts: seq<Action>, u: Uuid, v: Uuid)
    requires forall a :: a in acts ==> a.uuid == u
    ensures Project(acts, v) == if v == u then acts else []
  {
    if acts != [] {
      var n := |acts| - 1;
      assert acts[n] in acts;
      assert forall a :: a in acts[..n] ==> a in acts;
      ProjectOwn(acts[..n], u, v);
      assert acts[..n] + [acts[n]] == acts;
    }
  }

  predicate Distinct(order: seq<Uuid>)
  {
    forall i, j :: 0 <= i < j < |order| ==> order[i] != order[j]
  }

  /** `order` lists every key of `keys` exactly once: an iteration order. */
  ghost predicate Enumerates(order: seq<Uuid>, keys: set<Uuid>)
  {
    Distinct(order) && forall u :: u in order <==> u in keys
  }

  /** The fan-in sends give each submitted viewer exactly one packet. */
  lemma {:induction false} SendsProject(tasks: seq<Uuid>, u: Uuid)
    requires Distinct(tasks)
    ensures Project(Sends(tasks), u) == if u in tasks then [FrameSent(u)] else []
  {
    if tasks != [] {
      var n := |tasks| - 1;
      assert Sends(tasks) == Sends(tasks[..n]) + [FrameSent(tasks[n])];
      assert Sends(tasks)[..n] == Sends(tasks[..n]);
      assert u in tasks <==> u in tasks[..n] || u == tasks[n];
      assert tasks[n] !in tasks[..n];
      SendsProject(tasks[..n], u);
    }
  }

  /** Whether a pass writes the entry's zoom into `scales`. */
  predicate SavesScale(phase: Phase, o: Outcome)
  {
    phase == Updating || o.deactivated
  }

  /** Every action a pass emits for an entry concerns that entry's viewer, and
      the entry it leaves is still filed under the right viewer. */
  lemma EntryConcernsItsViewer(phase: Phase, st: State, u: Uuid, env: Env)
    requires WellFormed(st) && u in st.settings
    ensures var o := EntryOf(phase, st, u, env);
            (forall a :: a in o.actions ==> a.uuid == u) && (o.kept.Some? ==> o.kept.value.uuid == u)
  {
  }

  /** A pass leaves every entry it does not visit alone, and leaves each
      visited entry as that entry's outcome says, filed under its viewer. */
  lemma {:induction false} PassSettings(phase: Phase, st: State, order: seq<Uuid>, env: Env)
    requires WellFormed(st) && Distinct(order)
    requires forall u :: u in order ==> u in st.settings
    ensures var r := Pass(phase, st, order, env).0;
      && WellFormed(r)
      && (forall u :: u in r.settings <==>
            u in st.settings && (u in order ==> EntryOf(phase, st, u, env).kept.Some?))
      && (forall u :: u in r.settings ==>
            r.settings[u] == if u in order then EntryOf(phase, st, u, env).kept.value else st.settings[u])
  {
    if order != [] {
      var n := |order| - 1;
      var init, w := order[..n], order[n];
      assert forall u :: u in order <==> u in init || u == w;
      assert w !in init;
      PassSettings(phase, st, init, env);
      var mid := Pass(phase, st, init, env).0;
      EntryConcernsItsViewer(phase, st, w, env);
      assert EntryOf(phase, mid, w, env) == EntryOf(phase, st, w, env);
    }
  }

  /** A pass writes a visited entry's zoom into `scales` when it saves it, and
      touches no other key of `scales`. */
  lemma {:induction false} PassScales(phase: Phase, st: State, order: seq<Uuid>, env: Env)
    requires WellFormed(st) && Distinct(order)
    requires forall u :: u in order ==> u in st.settings
    ensures var r := Pass(phase, st, order, env).0;
      && (forall u :: u in r.scales <==>
            u in st.scales || (u in order && SavesScale(phase, EntryOf(phase, st, u, env))))
      && (forall u :: u in r.scales ==>
            r.scales[u] == if u in order && SavesScale(phase, EntryOf(phase, st, u, env))
                           then st.settings[u].zoomscale else st.scales[u])
  {
    if order != [] {
      var n := |order| - 1;
      var init, w := order[..n], order[n];
      assert forall u :: u in order <==> u in init || u == w;
      assert w !in init;
      PassSettings(phase, st, init, env);
      PassScales(phase, st, init, env);
      var mid := Pass(phase, st, init, env).0;
      assert EntryOf(phase, mid, w, env) == EntryOf(phase, st, w, env);
    }
  }

  /** A pass adds to each viewer's part of the log exactly the actions of that
      viewer's entry. */
  lemma {:induction false} PassLog(phase: Phase, st: State, order: seq<Uuid>, env: Env)
    requires WellFormed(st) && Distinct(order)
    requires forall u :: u in order ==> u in st.settings
    ensures var r := Pass(phase, st, order, env).0;
      forall u :: Project(r.log, u) ==
        Project(st.log, u) + (if u in order then EntryOf(phase, st, u, env).actions else [])
  {
    if order != [] {
      var n := |order| - 1;
      var init, w := order[..n], order[n];
      assert forall u :: u in order <==> u in init || u == w;
      assert w !in init;
      PassSettings(phase, st, init, env);
      PassLog(phase, st, init, env);
      var mid := Pass(phase, st, init, env).0;
      var o := EntryOf(phase, st, w, env);
      assert EntryOf(phase, mid, w, env) == o;
      EntryConcernsItsViewer(phase, st, w, env);
      var r := Pass(phase, st, order, env).0;
      assert r.log == mid.log + o.actions;
      forall u
        ensures Project(r.log, u) ==
                Project(st.log, u) + (if u in order then EntryOf(phase, st, u, env).actions else [])
      {
        ProjectAppend(mid.log, o.actions, u);
        ProjectOwn(o.actions, w, u);
        if u == w {
          assert Project(mid.log, u) == Project(st.log, u);
        } else {
          assert Project(o.actions, u) == [];
          assert Project(r.log, u) == Project(mid.log, u);
        }
      }
    }
  }

  /** A pass submits frame tasks for exactly the visited viewers whose entry
      schedules one, each once. */
  lemma {:induction false} PassTasks(phase: Phase, st: State, order: seq<Uuid>, env: Env)
    requires WellFormed(st) && Distinct(order)
    requires forall u :: u in order ==> u in st.settings
    ensures var tasks := Pass(phase, st, order, env).1;
      && Distinct(tasks)
      && (forall u :: u in tasks <==> u in order && EntryOf(phase, st, u, env).scheduled)
  {
    if order != [] {
      var n := |order| - 1;
      var init, w := order[..n], order[n];
      assert forall u :: u in order <==> u in init || u == w;
      assert w !in init;
      PassSettings(phase, st, init, env);
      PassTasks(phase, st, init, env);
      var mid := Pass(phase, st, init, env).0;
      assert EntryOf(phase, mid, w, env) == EntryOf(phase, st, w, env);
    }
  }

  /** Part way through a pass, every viewer not yet visited is still tracked. */
  lemma PassLeavesUnvisited(phase: Phase, st: State, order: seq<Uuid>, i: nat, env: Env)
    requires WellFormed(st) && Enumerates(order, st.settings.Keys) && i <= |order|
    ensures WellFormed(Pass(phase, st, order[..i], env).0)
    ensures forall j :: i <= j < |order| ==> order[j] in Pass(phase, st, order[..i], env).0.settings
  {
    var visited := order[..i];
    PassSettings(phase, st, visited, env);
  }

  /** The sweep only removes entries and keeps them filed correctly. */
  lemma SweepShrinks(st: State, order: seq<Uuid>, env: Env)
    requires WellFormed(st) && Enumerates(order, st.settings.Keys)
    ensures WellFormed(Sweep(st, order, env))
    ensures Sweep(st, order, env).settings.Keys <= st.settings.Keys
  {
    PassSettings(Sweeping, st, order, env);
    var r := Sweep(st, order, env);
    forall u | u in r.settings.Keys
      ensures u in st.settings.Keys
    {
      assert u in r.settings;
    }
  }

  /** The liveness sweep, viewer by viewer, when `order` is the settings map's
      iteration order: an entry survives exactly when its player is online and
      holds this map in a hand; a removed entry's zoom is saved and its
      viewer's log gains the deactivate event and the `onClose` of any open
      menu, once. */
  lemma SweepPerViewer(st: State, order: seq<Uuid>, env: Env)
    requires WellFormed(st) && Enumerates(order, st.settings.Keys)
    ensures var r := Sweep(st, order, env);
      && WellFormed(r)
      && (forall u :: u in r.settings <==>
            u in st.settings && u in env.players && InHand(env.players[u], st.id))
      && (forall u :: u in r.settings ==> r.settings[u] == EntryOf(Sweeping, st, u, env).kept.value)
      && (forall u :: u in st.settings && u !in r.settings ==>
            u in r.scales && r.scales[u] == st.settings[u].zoomscale &&
            Project(r.log, u) == Project(st.log, u) + [DeactivateEvent(u)] + CloseMenu(st.settings[u]))
  {
    PassSettings(Sweeping, st, order, env);
    PassScales(Sweeping, st, order, env);
    PassLog(Sweeping, st, order, env);
  }

  /** `update`, viewer by viewer, when `order` is the settings map's iteration
      order: every visited entry's zoom is saved and no other key of `scales`
      changes; an entry survives exactly when it is not idle past the threshold
      and its player is online; every survivor ends without an interaction. */
  lemma UpdatePerViewer(st: State, order: seq<Uuid>, env: Env)
    requires WellFormed(st) && Enumerates(order, st.settings.Keys)
    ensures var r := Update(st, order, env);
      && WellFormed(r)
      && (forall u :: u in r.settings <==>
            u in st.settings && env.now - st.settings[u].lastUpdated <= UpdateThreshold && u in env.players)
      && (forall u :: u in r.settings ==>
            r.settings[u] == EntryOf(Updating, st, u, env).kept.value.(interaction := None))
      && (forall u :: u in st.settings ==> u in r.scales && r.scales[u] == st.settings[u].zoomscale)
      && (forall u :: u !in st.settings ==> (u in r.scales <==> u in st.scales))
      && (forall u :: u !in st.settings && u in st.scales ==> r.scales[u] == st.scales[u])
  {
    PassSettings(Updating, st, order, env);
    PassScales(Updating, st, order, env);
  }

  /** `update`'s log, viewer by viewer: each viewer's part of the log gains
      that entry's actions followed by one frame packet exactly when a frame
      task was submitted for it. */
  lemma UpdateLogPerViewer(st: State, order: seq<Uuid>, env: Env, u: Uuid)
    requires WellFormed(st) && Enumerates(order, st.settings.Keys)
    ensures Project(Update(st, order, env).log, u) == Project(st.log, u) +
            (if u in st.settings then
               var o := EntryOf(Updating, st, u, env);
               o.actions + (if o.scheduled then [FrameSent(u)] else [])
             else [])
  {
    PassLog(Updating, st, order, env);
    PassTasks(Updating, st, order, env);
    var (mid, tasks) := Pass(Updating, st, order, env);
    assert Update(st, order, env).log == mid.log + Sends(tasks);
    ProjectAppend(mid.log, Sends(tasks), u);
    SendsProject(tasks, u);
  }

  /** The survivors of a distinct order are distinct and enumerate what is left. */
  lemma {:induction false} SurvivorsEnumerate(order: seq<Uuid>, keys: set<Uuid>)
    requires Distinct(order)
    requires forall u :: u in keys ==> u in order
    ensures Enumerates(Survivors(order, keys), keys)
  {
    if order != [] {
      var n := |order| - 1;
      assert forall u :: u in order <==> u in order[..n] || u == order[n];
      assert order[n] !in order[..n];
      SurvivorsEnumerate(order[..n], keys - {order[n]});
      SurvivorsAgree(order[..n], keys, keys - {order[n]});
    }
  }

  /** Keys outside `order` do not affect which of its entries survive. */
  lemma {:induction false} SurvivorsAgree(order: seq<Uuid>, keys: set<Uuid>, keys': set<Uuid>)
    requires forall u :: u in order ==> (u in keys <==> u in keys')
    ensures Survivors(order, keys) == Survivors(order, keys')
  {
    if order != [] {
      var n := |order| - 1;
      var last := order[n];
      assert last in order;
      assert last in keys <==> last in keys';
      forall u | u in order[..n] ensures u in keys <==> u in keys' {
        var i :| 0 <= i < n && order[..n][i] == u;
        assert order[i] == u;
      }
      SurvivorsAgree(order[..n], keys, keys');
    }
  }

  /** A full tick that is not skipped, viewer by viewer: a viewer stays
      tracked exactly when it was tracked, is online and holds this map in
      either hand; it then records whether the map is in its main hand, was
      updated now and has no pending interaction. */
  lemma TickRenderPerViewer(st: State, order: seq<Uuid>, env: Env)
    requires WellFormed(st) && Enumerates(order, st.settings.Keys)
    requires !env.plugin.overloaded && env.plugin.renderDelay != 0
    requires st.tick % env.plugin.renderDelay == 0
    ensures var r := TickRender(st, order, env);
      && r.tick == st.tick + 1
      && (forall u :: u in r.settings <==>
            u in st.settings && u in env.players && InHand(env.players[u], st.id))
      && (forall u :: u in r.settings ==>
            && r.settings[u].mainhand == InMainHand(env.players[u], st.id)
            && r.settings[u].lastUpdated == env.now
            && r.settings[u].interaction.None?)
  {
    var st1 := st.(tick := st.tick + 1);
    var swept := Sweep(st1, order, env);
    SweepPerViewer(st1, order, env);
    var order' := Survivors(order, swept.settings.Keys);
    SurvivorsEnumerate(order, swept.settings.Keys);
    UpdatePerViewer(swept, order', env);
    var r := Update(swept, order', env);
    assert TickRender(st, order, env) == r;
    forall u | u in swept.settings
      ensures u in env.players && InHand(env.players[u], st.id)
      ensures swept.settings[u].lastUpdated == env.now
      ensures swept.settings[u].mainhand == InMainHand(env.players[u], st.id)
    {
      assert swept.settings[u] == EntryOf(Sweeping, st1, u, env).kept.value;
    }
    forall u | u in r.settings
      ensures r.settings[u].mainhand == swept.settings[u].mainhand
      ensures r.settings[u].lastUpdated == swept.settings[u].lastUpdated
    {
      assert r.settings[u] == EntryOf(Updating, swept, u, env).kept.value.(interaction := None);
    }
  }

  /** A full tick that is not skipped, for one tracked viewer: its part of
      the log gains what the sweep emits for it and then, if it survived the
      sweep, what the update pass emits for it, including its frame packet. */
  lemma TickRenderLogFor(st: State, order: seq<Uuid>, env: Env, u: Uuid)
    requires WellFormed(st) && Enumerates(order, st.settings.Keys) && u in st.settings
    requires !env.plugin.overloaded && env.plugin.renderDelay != 0
    requires st.tick % env.plugin.renderDelay == 0
    ensures var st1 := st.(tick := st.tick + 1);
      var swept := Sweep(st1, order, env);
      Project(TickRender(st, order, env).log, u) ==
        Project(st.log, u) + EntryOf(Sweeping, st1, u, env).actions +
        (if u in swept.settings then
           var o := EntryOf(Updating, swept, u, env);
           o.actions + (if o.scheduled then [FrameSent(u)] else [])
         else [])
  {
    var st1 := st.(tick := st.tick + 1);
    var swept := Sweep(st1, order, env);
    SweepLogFor(st1, order, env, u);
    TickRenderParts(st, order, env);
    UpdateLogPerViewer(swept, Survivors(order, swept.settings.Keys), env, u);
  }

  /** A full tick that is not skipped is the sweep followed by the update
      pass over the survivors, in their old order. */
  lemma TickRenderParts(st: State, order: seq<Uuid>, env: Env)
    requires WellFormed(st) && Enumerates(order, st.settings.Keys)
    requires !env.plugin.overloaded && env.plugin.renderDelay != 0
    requires st.tick % env.plugin.renderDelay == 0
    ensures var swept := Sweep(st.(tick := st.tick + 1), order, env);
      && WellFormed(swept)
      && Enumerates(Survivors(order, swept.settings.Keys), swept.settings.Keys)
      && TickRender(st, order, env) == Update(swept, Survivors(order, swept.settings.Keys), env)
  {
    var st1 := st.(tick := st.tick + 1);
    var swept := Sweep(st1, order, env);
    SweepShrinks(st1, order, env);
    SurvivorsEnumerate(order, swept.settings.Keys);
  }

  /** `update` only appends to each viewer's part of the log. */
  lemma UpdateLog(st: State, order: seq<Uuid>, env: Env, u: Uuid)
    requires WellFormed(st) && Enumerates(order, st.settings.Keys)
    ensures Project(st.log, u) <= Project(Update(st, order, env).log, u)
  {
    UpdateLogPerViewer(st, order, env, u);
  }

  /** The sweep, for one tracked viewer's entry. */
  lemma SweepEntryFor(st: State, order: seq<Uuid>, env: Env, u: Uuid)
    requires WellFormed(st) && Enumerates(order, st.settings.Keys) && u in st.settings
    ensures var r := Sweep(st, order, env);
      && (u in r.settings <==> EntryOf(Sweeping, st, u, env).kept.Some?)
      && (u in r.settings ==> r.settings[u] == EntryOf(Sweeping, st, u, env).kept.value)
  {
    PassSettings(Sweeping, st, order, env);
  }

  /** `update`, for one tracked viewer's entry. */
  lemma UpdateEntryFor(st: State, order: seq<Uuid>, env: Env, u: Uuid)
    requires WellFormed(st) && Enumerates(order, st.settings.Keys) && u in st.settings
    ensures var r := Update(st, order, env);
      && (u in r.settings <==> EntryOf(Updating, st, u, env).kept.Some?)
      && (u in r.settings ==> r.settings[u] == EntryOf(Updating, st, u, env).kept.value.(interaction := None))
  {
    PassSettings(Updating, st, order, env);
  }

  /** The sweep, for one tracked viewer's part of the log. */
  lemma SweepLogFor(st: State, order: seq<Uuid>, env: Env, u: Uuid)
    requires WellFormed(st) && Enumerates(order, st.settings.Keys) && u in st.settings
    ensures Project(Sweep(st, order, env).log, u) == Project(st.log, u) + EntryOf(Sweeping, st, u, env).actions
  {
    PassLog(Sweeping, st, order, env);
  }

  /** `deactivate` on an entry with an open menu reports exactly one `onClose`,
      for that menu, before the entry disappears. */
  lemma RetireClosesMenuOnce(u: Uuid, s: Setting)
    requires s.menu.Some?
    ensures var acts := Retire(u, s).actions;
            acts == [DeactivateEvent(u), MenuClose(s.uuid, s.menu.value)]
            && multiset(acts)[MenuClose(s.uuid, s.menu.value)] == 1
  {
  }
}
