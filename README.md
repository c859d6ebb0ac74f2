# Cartographer2: viewer tracking and claim-border shading, in Dafny

This project models two parts of the Cartographer2 minimap plugin.

**`CartographerRenderer`** keeps one `PlayerSetting` per viewer of a map item. It also keeps a map `scales` that remembers each viewer's zoom, and a tick counter. Its entry points are:

- `render`: the server calls it when it draws the map for a player.
- `tickRender`: the server scheduler calls it every tick. It skips when the server is overloaded or the tick is not due. Otherwise it runs a liveness sweep that also drives the aim cursor and hand switches, then the `update` pass.
- `update`: handles time-outs, offline players, open menus and missing minimaps. It submits one frame task per viewer, sends the finished frames in submission order, and clears every interaction.
- The single-entry mutators `setScale`, `setMapMenu`, `interact`, `setMinimap`, `setPlayerMap` and `unregisterPlayer`, and the queries `getScale`, `getMenu`, `isViewing` and `getMinimap`.
- `PlayerSetting.deactivate`: remembers the zoom and closes an open menu.

**`ClaimBorderShader.getWorldPixels`** (GriefDefender module) chooses a colour for each claim from the viewing player's relationship to it. For every claim with a colour it emits four border rectangles whose thickness follows the zoom scale.

The model has these modules:

- `Aim`: the aim-cursor arithmetic. Java's truncating double `%` is written out, and the source's `((a % 360) + 360) % 360` is proved equal to the floor-based reduction modulo 360. The module also covers the signed deviation, the clamped X cursor, the ±40° dead zone and the pitch-driven Y cursor.
- `Fallback`: the three-level fallbacks for the rotation flag and the overlay/background images. Each is proved equal to a "first level that is set" reference function.
- `Scheduler`: the renderer's state as a value `State`, and each entry point as a function on it. One pass over the settings map is a fold of a per-entry `Outcome` over the map's iteration order. Events, `onClose` calls and packets are appended to a log of `Action`s.
- `SchedulerProofs`: each pass restated viewer by viewer. An entry's fate, saved zoom and part of the log depend only on that entry, not on the iteration order.
- `Lifecycle`: properties across entry points. Zoom is remembered across deactivation. The predicate `ClosesWhatItDrops` states that a menu leaves a viewer only after its `onClose`, and every entry point except `unregisterPlayer` preserves it.
- `Renderer`: the class `CartographerRenderer`, whose map and log fields are updated in place by methods with loops. Each method is proved to produce exactly the `Scheduler` function's state and to keep every setting filed under its own viewer.
- `ClaimBorders`: the colour chain, thickness and rectangles, the union over all claims, and the accumulating loop of `getWorldPixels`.

Inputs that the Java code fetches from Bukkit or other components are parameters here:

- the online players (`Env.players`: absent means `Bukkit.getPlayer` returned null);
- the map id held in each hand, and the yaw and pitch;
- the current time in milliseconds;
- the plugin's overload flag, render delay, default images and minimap registry;
- the menu's `view` and `interact` answers, and whether a listener cancelled the interact event;
- for each `settings` pass, the `HashMap`'s iteration order.

`unregisterPlayer` removes a viewer without `deactivate`: the zoom is not saved and an open menu gets no `onClose`. The model keeps this as written, and `Lifecycle.UnregisterSkipsDeactivate` shows that it breaks the rule every other entry point keeps.

## Model

| member | source | states |
|---|---|---|
| Aim.Rem360 | Cartographer2_Main/src/main/java/io/github/bananapuncher714/cartographer/core/renderer/CartographerRenderer.java:400 | Java's double `%` by 360 keeps the sign of the dividend and lies in (-360, 0] or [0, 360) |
| Aim.NormalizeYaw | Cartographer2_Main/src/main/java/io/github/bananapuncher714/cartographer/core/renderer/CartographerRenderer.java:400 | `((a % 360) + 360) % 360` lies in [0, 360) |
| Aim.NormalizeYawIsMod360 | Cartographer2_Main/src/main/java/io/github/bananapuncher714/cartographer/core/renderer/CartographerRenderer.java:400 | the double-remainder normalisation equals the mathematical representative of the angle modulo 360 |
| Aim.Deviation | Cartographer2_Main/src/main/java/io/github/bananapuncher714/cartographer/core/renderer/CartographerRenderer.java:399-402 | the deviation of the view from the tracked heading lies in (-180, 180] |
| Aim.DeviationIsWrappedDifference | Cartographer2_Main/src/main/java/io/github/bananapuncher714/cartographer/core/renderer/CartographerRenderer.java:399-402 | the deviation is the unique value in (-180, 180] that differs from `center - yaw` by whole turns |
| Aim.CenteredHasNoDeviation | Cartographer2_Main/src/main/java/io/github/bananapuncher714/cartographer/core/renderer/CartographerRenderer.java:399-402 | looking along the tracked heading gives deviation 0 |
| Aim.Clamp | Cartographer2_Main/src/main/java/io/github/bananapuncher714/cartographer/core/renderer/CartographerRenderer.java:405 | the clamped value lies within the bounds, is unchanged inside them and is the nearer bound outside them |
| Aim.CursorX | Cartographer2_Main/src/main/java/io/github/bananapuncher714/cartographer/core/renderer/CartographerRenderer.java:403-406 | the X cursor lies in [-127, 127]: 0 when centred, -127 at 40° or more, 127 at -40° or less, linear (-127/40 · deviation) in between |
| Aim.DeadZone | Cartographer2_Main/src/main/java/io/github/bananapuncher714/cartographer/core/renderer/CartographerRenderer.java:408-415 | the heading moves by nothing within ±40°, and otherwise by the deviation moved 40 toward zero, so the remainder is within ±40° |
| Aim.DeadZoneSettles | Cartographer2_Main/src/main/java/io/github/bananapuncher714/cartographer/core/renderer/CartographerRenderer.java:399-415 | after the heading moves by the dead-zone amount, the same view deviates by exactly the remainder, which lies within ±40° |
| Aim.CursorY | Cartographer2_Main/src/main/java/io/github/bananapuncher714/cartographer/core/renderer/CartographerRenderer.java:418-423 | the Y cursor lies in [-127, 127]; pitch ≤ 50 gives -127, pitch ≥ 90 gives 127 and pitch 70 gives 0 |
| Aim.CursorYMonotone | Cartographer2_Main/src/main/java/io/github/bananapuncher714/cartographer/core/renderer/CartographerRenderer.java:418-423 | raising the pitch never lowers the Y cursor |
| Aim.Trunc | Cartographer2_Main/src/main/java/io/github/bananapuncher714/cartographer/core/renderer/CartographerRenderer.java:143-144 | the `(int)` cast of a double truncates toward zero |
| Fallback.FirstSet | Cartographer2_Main/src/main/java/io/github/bananapuncher714/cartographer/core/renderer/CartographerRenderer.java:389-396 | reference: the first level that is not UNSET decides, and the default decides when all are UNSET |
| Fallback.Rotation | Cartographer2_Main/src/main/java/io/github/bananapuncher714/cartographer/core/renderer/CartographerRenderer.java:389-396 | the rotation flag is the global default when the minimap is missing, and otherwise the first set level of minimap then viewer, falling back to the default |
| Fallback.FirstPresent | Cartographer2_Main/src/main/java/io/github/bananapuncher714/cartographer/core/renderer/CartographerRenderer.java:179-191 | reference: the result is present iff some level is, and then it is the first present level |
| Fallback.PickImage | Cartographer2_Main/src/main/java/io/github/bananapuncher714/cartographer/core/renderer/CartographerRenderer.java:179-191 | the overlay/background image is the first present of minimap, viewer and global image |
| Scheduler.Resolve | Cartographer2_Main/src/main/java/io/github/bananapuncher714/cartographer/core/renderer/CartographerRenderer.java:154 | a minimap id resolves iff it is present and names a registered minimap, and then to that registered minimap |
| Scheduler.CloseMenu | Cartographer2_Main/src/main/java/io/github/bananapuncher714/cartographer/core/renderer/CartographerRenderer.java:612-618 | `deactivate` reports exactly one `onClose`, for the open menu, iff a menu is open |
| Scheduler.Track | Cartographer2_Main/src/main/java/io/github/bananapuncher714/cartographer/core/renderer/CartographerRenderer.java:398-424 | the main-hand cursor update sets the X cursor from the deviation `d` from the tracked heading, the Y cursor from the pitch, and moves the heading by `DeadZone(d)`; both cursors end in [-127, 127], the heading is kept when `d` is within ±40°, the new deviation is within ±40°, and nothing but the three cursor fields changes |
| Scheduler.SweepEntry | Cartographer2_Main/src/main/java/io/github/bananapuncher714/cartographer/core/renderer/CartographerRenderer.java:343-436 | a sweep entry is removed (after the deactivate event, then `deactivate`) iff its player is offline or holds the map in neither hand. A survivor records the main hand, location, rotation and now. A hand switch deactivates and re-activates it in place with its menu closed; otherwise its menu is kept and nothing is emitted |
| Scheduler.CursorByte | Cartographer2_Main/src/main/java/io/github/bananapuncher714/cartographer/core/renderer/CartographerRenderer.java:143-144 | a cursor coordinate is sent as an integer in [-127, 127] |
| Scheduler.UpdateEntry | Cartographer2_Main/src/main/java/io/github/bananapuncher714/cartographer/core/renderer/CartographerRenderer.java:105-214 | an update entry is removed after `deactivate` iff it is idle over the threshold or its player is offline. With a menu open, the menu is closed when `view` says so and displayed otherwise. The display carries the menu and the clamped, truncated cursor. Without a menu, a missing minimap sends exactly the placeholder and no task; otherwise exactly one frame task is submitted, with images resolved minimap, viewer, global |
| Scheduler.ClearInteractions | Cartographer2_Main/src/main/java/io/github/bananapuncher714/cartographer/core/renderer/CartographerRenderer.java:234-237 | every entry keeps its key and loses only its interaction |
| Scheduler.Update | Cartographer2_Main/src/main/java/io/github/bananapuncher714/cartographer/core/renderer/CartographerRenderer.java:102-238 | `update` keeps the renderer's id, minimap and tick, and every remaining entry has no interaction |
| Scheduler.Survivors | Cartographer2_Main/src/main/java/io/github/bananapuncher714/cartographer/core/renderer/CartographerRenderer.java:105-116 | the iteration order after removals lists exactly the remaining keys of the old order |
| Scheduler.TickRender | Cartographer2_Main/src/main/java/io/github/bananapuncher714/cartographer/core/renderer/CartographerRenderer.java:332-341 | when overloaded nothing changes; otherwise the tick grows by exactly one, and when the old tick is not a multiple of the delay nothing else changes |
| Scheduler.Render | Cartographer2_Main/src/main/java/io/github/bananapuncher714/cartographer/core/renderer/CartographerRenderer.java:444-523 | not holding the map removes the viewer, deactivating it only if it was tracked. Holding it untracked creates exactly one entry: remembered zoom (1 if none), current minimap, the player's location, the rotation flag from the fallback chain, cursor at the centre, heading at the yaw modulo 360 in the main hand, and one activate event. Holding it tracked changes nothing but the map id |
| SchedulerProofs.SendsProject | Cartographer2_Main/src/main/java/io/github/bananapuncher714/cartographer/core/renderer/CartographerRenderer.java:216-232 | the fan-in sends exactly one packet to each submitted viewer and none to anyone else |
| SchedulerProofs.EntryConcernsItsViewer | Cartographer2_Main/src/main/java/io/github/bananapuncher714/cartographer/core/renderer/CartographerRenderer.java:105-214 | every action one entry emits names that entry's viewer |
| SchedulerProofs.PassSettings | Cartographer2_Main/src/main/java/io/github/bananapuncher714/cartographer/core/renderer/CartographerRenderer.java:105-116 | a pass keeps an entry iff it is unvisited or its outcome keeps it, and leaves it as that outcome says, whatever the iteration order |
| SchedulerProofs.PassScales | Cartographer2_Main/src/main/java/io/github/bananapuncher714/cartographer/core/renderer/CartographerRenderer.java:108 | a pass saves a visited entry's zoom when it runs `update` or `deactivate`, and touches no other key of `scales` |
| SchedulerProofs.PassLog | Cartographer2_Main/src/main/java/io/github/bananapuncher714/cartographer/core/renderer/CartographerRenderer.java:105-214 | a pass adds to each viewer's part of the log exactly that viewer's entry's actions |
| SchedulerProofs.PassTasks | Cartographer2_Main/src/main/java/io/github/bananapuncher714/cartographer/core/renderer/CartographerRenderer.java:209-213 | a pass submits a frame task exactly once for each visited viewer whose entry schedules one |
| SchedulerProofs.SweepShrinks | Cartographer2_Main/src/main/java/io/github/bananapuncher714/cartographer/core/renderer/CartographerRenderer.java:343-383 | the sweep only removes entries |
| SchedulerProofs.SweepPerViewer | Cartographer2_Main/src/main/java/io/github/bananapuncher714/cartographer/core/renderer/CartographerRenderer.java:343-436 | after the sweep, a viewer is tracked iff it was, is online and holds the map; a removed viewer's zoom is saved and its log gains the deactivate event and one `onClose` of any open menu |
| SchedulerProofs.UpdatePerViewer | Cartographer2_Main/src/main/java/io/github/bananapuncher714/cartographer/core/renderer/CartographerRenderer.java:102-238 | after `update`, a viewer is tracked iff it was, is not idle past the threshold and is online; every visited zoom is saved and nothing else in `scales` changes; no survivor has an interaction |
| SchedulerProofs.UpdateLogPerViewer | Cartographer2_Main/src/main/java/io/github/bananapuncher714/cartographer/core/renderer/CartographerRenderer.java:105-232 | `update` adds to a viewer's part of the log its entry's actions followed by one frame packet exactly when a task was submitted for it |
| SchedulerProofs.SurvivorsEnumerate | Cartographer2_Main/src/main/java/io/github/bananapuncher714/cartographer/core/renderer/CartographerRenderer.java:105-116 | after the sweep's removals the filtered order is a valid iteration order of the remaining keys |
| SchedulerProofs.SurvivorsAgree | Cartographer2_Main/src/main/java/io/github/bananapuncher714/cartographer/core/renderer/CartographerRenderer.java:105-116 | keys outside the order do not change which of its entries survive |
| SchedulerProofs.TickRenderPerViewer | Cartographer2_Main/src/main/java/io/github/bananapuncher714/cartographer/core/renderer/CartographerRenderer.java:332-441 | after a due tick, a viewer is tracked iff it was tracked, is online and holds the map; it records whether the map is in its main hand, was updated now and has no interaction |
| SchedulerProofs.TickRenderLogFor | Cartographer2_Main/src/main/java/io/github/bananapuncher714/cartographer/core/renderer/CartographerRenderer.java:332-441 | a due tick adds to a viewer's part of the log what the sweep emits for it and then, if it survived, what `update` emits for it, including its frame packet |
| SchedulerProofs.TickRenderParts | Cartographer2_Main/src/main/java/io/github/bananapuncher714/cartographer/core/renderer/CartographerRenderer.java:338-440 | a due tick is the sweep followed by `update` over the survivors in their old order, and the survivors are still correctly filed |
| SchedulerProofs.UpdateLog | Cartographer2_Main/src/main/java/io/github/bananapuncher714/cartographer/core/renderer/CartographerRenderer.java:102-238 | `update` only appends to each viewer's part of the log |
| SchedulerProofs.SweepEntryFor | Cartographer2_Main/src/main/java/io/github/bananapuncher714/cartographer/core/renderer/CartographerRenderer.java:343-436 | the sweep keeps a tracked viewer iff its entry's outcome keeps it, as that outcome says |
| SchedulerProofs.UpdateEntryFor | Cartographer2_Main/src/main/java/io/github/bananapuncher714/cartographer/core/renderer/CartographerRenderer.java:105-237 | `update` keeps a tracked viewer iff its entry's outcome keeps it, as that outcome says, with the interaction cleared |
| SchedulerProofs.SweepLogFor | Cartographer2_Main/src/main/java/io/github/bananapuncher714/cartographer/core/renderer/CartographerRenderer.java:343-436 | the sweep adds to a tracked viewer's part of the log exactly its entry's actions |
| SchedulerProofs.RetireClosesMenuOnce | Cartographer2_Main/src/main/java/io/github/bananapuncher714/cartographer/core/renderer/CartographerRenderer.java:349-355 | removing an entry with an open menu emits the deactivate event then exactly one `onClose` of that menu |
| Lifecycle.EntryMenu | Cartographer2_Main/src/main/java/io/github/bananapuncher714/cartographer/core/renderer/CartographerRenderer.java:105-151 | every entry of either pass either closes its open menu or keeps it open |
| Lifecycle.SetScaleRemembered | Cartographer2_Main/src/main/java/io/github/bananapuncher714/cartographer/core/renderer/CartographerRenderer.java:262-268 | after `setScale` a tracked viewer has the new zoom at once, and an untracked viewer gets it when it next picks up the map; no menu is dropped |
| Lifecycle.ZoomSurvivesReactivation | Cartographer2_Main/src/main/java/io/github/bananapuncher714/cartographer/core/renderer/CartographerRenderer.java:469-499 | putting the map away and picking it up again restores the viewer's zoom, with no menu open |
| Lifecycle.RenderClosesWhatItDrops | Cartographer2_Main/src/main/java/io/github/bananapuncher714/cartographer/core/renderer/CartographerRenderer.java:469-478 | `render` calls `onClose` for any menu it drops and changes no other viewer's part of the log |
| Lifecycle.SetMapMenuClosesOld | Cartographer2_Main/src/main/java/io/github/bananapuncher714/cartographer/core/renderer/CartographerRenderer.java:270-279 | `setMapMenu` installs the new menu after exactly one `onClose` of the old one, if any, and does nothing for an untracked viewer |
| Lifecycle.InteractOutcome | Cartographer2_Main/src/main/java/io/github/bananapuncher714/cartographer/core/renderer/CartographerRenderer.java:289-306 | `interact` stores the interaction; the menu is cleared iff none was open or the event was not cancelled and the menu answered done; an untracked viewer is ignored |
| Lifecycle.InteractLog | Cartographer2_Main/src/main/java/io/github/bananapuncher714/cartographer/core/renderer/CartographerRenderer.java:289-306 | with a menu open, `interact` fires the interact event and then calls `onClose` exactly when the event was not cancelled and the menu answered done; it drops no menu without `onClose` |
| Lifecycle.SweepMenuFor | Cartographer2_Main/src/main/java/io/github/bananapuncher714/cartographer/core/renderer/CartographerRenderer.java:343-436 | the sweep either calls `onClose` for a viewer's open menu or keeps it open |
| Lifecycle.UpdateMenuFor | Cartographer2_Main/src/main/java/io/github/bananapuncher714/cartographer/core/renderer/CartographerRenderer.java:129-151 | `update` either calls `onClose` for a viewer's open menu or keeps it open |
| Lifecycle.TickRenderClosesFor | Cartographer2_Main/src/main/java/io/github/bananapuncher714/cartographer/core/renderer/CartographerRenderer.java:332-441 | a due tick that drops a viewer's menu has called that menu's `onClose` |
| Lifecycle.TickRenderClosesWhatItDrops | Cartographer2_Main/src/main/java/io/github/bananapuncher714/cartographer/core/renderer/CartographerRenderer.java:332-441 | every tick, skipped or due, drops no menu without `onClose` |
| Lifecycle.DueTickClosesWhatItDrops | Cartographer2_Main/src/main/java/io/github/bananapuncher714/cartographer/core/renderer/CartographerRenderer.java:343-440 | a due tick, sweep then `update`, drops no menu without `onClose` |
| Lifecycle.Retargeting | Cartographer2_Main/src/main/java/io/github/bananapuncher714/cartographer/core/renderer/CartographerRenderer.java:240-248 | `setMinimap` points the renderer and every viewer at the new minimap; `setPlayerMap` points one tracked viewer at it with its default zoom and answers whether the viewer was tracked; neither touches a menu or emits anything |
| Lifecycle.UnregisterSkipsDeactivate | Cartographer2_Main/src/main/java/io/github/bananapuncher714/cartographer/core/renderer/CartographerRenderer.java:312-314 | `unregisterPlayer` removes the entry without saving its zoom or calling `onClose` of an open menu |
| Renderer.CartographerRenderer.constructor | Cartographer2_Main/src/main/java/io/github/bananapuncher714/cartographer/core/renderer/CartographerRenderer.java:71-79 | a new renderer tracks nobody and shows the given minimap, if any |
| Renderer.CartographerRenderer.Deactivate | Cartographer2_Main/src/main/java/io/github/bananapuncher714/cartographer/core/renderer/CartographerRenderer.java:612-618 | `deactivate` saves the zoom into `scales`, then calls `onClose` and clears the menu if one is open |
| Renderer.CartographerRenderer.Retire | Cartographer2_Main/src/main/java/io/github/bananapuncher714/cartographer/core/renderer/CartographerRenderer.java:112-115 | the removal path fires the deactivate event, runs `deactivate` and removes the entry |
| Renderer.CartographerRenderer.SweepOne | Cartographer2_Main/src/main/java/io/github/bananapuncher714/cartographer/core/renderer/CartographerRenderer.java:343-383 | one sweep iteration changes the state exactly as the entry's sweep outcome says |
| Renderer.CartographerRenderer.KeepViewing | Cartographer2_Main/src/main/java/io/github/bananapuncher714/cartographer/core/renderer/CartographerRenderer.java:385-435 | for a viewer holding the map, the in-place cursor, rotation, hand-switch and timestamp updates give exactly the entry's sweep outcome |
| Renderer.CartographerRenderer.UpdateOne | Cartographer2_Main/src/main/java/io/github/bananapuncher714/cartographer/core/renderer/CartographerRenderer.java:105-213 | one `update` iteration changes the state exactly as the entry's update outcome says, and reports whether a frame task was submitted |
| Renderer.CartographerRenderer.UpdateEntries | Cartographer2_Main/src/main/java/io/github/bananapuncher714/cartographer/core/renderer/CartographerRenderer.java:104-214 | the iterator loop of `update` yields the pass's state and its submitted tasks in order |
| Renderer.CartographerRenderer.SendFrames | Cartographer2_Main/src/main/java/io/github/bananapuncher714/cartographer/core/renderer/CartographerRenderer.java:216-232 | the fan-in loop appends one frame packet per task, in submission order |
| Renderer.CartographerRenderer.ClearAll | Cartographer2_Main/src/main/java/io/github/bananapuncher714/cartographer/core/renderer/CartographerRenderer.java:234-237 | the final loop clears every entry's interaction and changes nothing else |
| Renderer.CartographerRenderer.Update | Cartographer2_Main/src/main/java/io/github/bananapuncher714/cartographer/core/renderer/CartographerRenderer.java:102-238 | `update` in place computes `Scheduler.Update` and keeps every entry filed under its viewer |
| Renderer.CartographerRenderer.Sweep | Cartographer2_Main/src/main/java/io/github/bananapuncher714/cartographer/core/renderer/CartographerRenderer.java:343-436 | the sweep loop computes the sweep and only removes entries |
| Renderer.CartographerRenderer.TickRender | Cartographer2_Main/src/main/java/io/github/bananapuncher714/cartographer/core/renderer/CartographerRenderer.java:332-441 | `tickRender` in place computes `Scheduler.TickRender` |
| Renderer.CartographerRenderer.Render | Cartographer2_Main/src/main/java/io/github/bananapuncher714/cartographer/core/renderer/CartographerRenderer.java:444-523 | `render` in place computes `Scheduler.Render` |
| Renderer.CartographerRenderer.GetScale | Cartographer2_Main/src/main/java/io/github/bananapuncher714/cartographer/core/renderer/CartographerRenderer.java:250-256 | `getScale` answers the zoom of a tracked viewer and nothing for an untracked one |
| Renderer.CartographerRenderer.SetScale | Cartographer2_Main/src/main/java/io/github/bananapuncher714/cartographer/core/renderer/CartographerRenderer.java:262-268 | `setScale` in place computes `Scheduler.SetScale` |
| Renderer.CartographerRenderer.SetMapMenu | Cartographer2_Main/src/main/java/io/github/bananapuncher714/cartographer/core/renderer/CartographerRenderer.java:270-279 | `setMapMenu` in place computes `Scheduler.SetMapMenu` |
| Renderer.CartographerRenderer.GetMenu | Cartographer2_Main/src/main/java/io/github/bananapuncher714/cartographer/core/renderer/CartographerRenderer.java:281-287 | `getMenu` answers a tracked viewer's menu and nothing for an untracked one |
| Renderer.CartographerRenderer.Interact | Cartographer2_Main/src/main/java/io/github/bananapuncher714/cartographer/core/renderer/CartographerRenderer.java:289-306 | `interact` in place computes `Scheduler.Interact` |
| Renderer.CartographerRenderer.IsViewing | Cartographer2_Main/src/main/java/io/github/bananapuncher714/cartographer/core/renderer/CartographerRenderer.java:308-310 | a viewer is viewing iff it is tracked |
| Renderer.CartographerRenderer.UnregisterPlayer | Cartographer2_Main/src/main/java/io/github/bananapuncher714/cartographer/core/renderer/CartographerRenderer.java:312-314 | `unregisterPlayer` in place computes `Scheduler.UnregisterPlayer` |
| Renderer.CartographerRenderer.GetMinimap | Cartographer2_Main/src/main/java/io/github/bananapuncher714/cartographer/core/renderer/CartographerRenderer.java:316-318 | `getMinimap` finds the minimap iff the renderer has an id that is still registered |
| Renderer.CartographerRenderer.SetMinimap | Cartographer2_Main/src/main/java/io/github/bananapuncher714/cartographer/core/renderer/CartographerRenderer.java:320-329 | the loop over all entries and the final assignment compute `Scheduler.SetMinimap` |
| Renderer.CartographerRenderer.SetPlayerMap | Cartographer2_Main/src/main/java/io/github/bananapuncher714/cartographer/core/renderer/CartographerRenderer.java:240-248 | `setPlayerMap` in place computes `Scheduler.SetPlayerMap` and answers whether the viewer was tracked |
| ClaimBorders.FirstGranted | Cartographer2_Modules/GriefDefender/src/main/java/io/github/bananapuncher714/cartographer/module/griefdefender/ClaimBorderShader.java:33-38 | reference: the first trust level in the order that is granted to the player, or none iff none is |
| ClaimBorders.FirstGrantedInPriority | Cartographer2_Modules/GriefDefender/src/main/java/io/github/bananapuncher714/cartographer/module/griefdefender/ClaimBorderShader.java:33-38 | the source's if-chain over accessor, manager, builder, container, resident is the first granted level in that order |
| ClaimBorders.ChooseShade | Cartographer2_Modules/GriefDefender/src/main/java/io/github/bananapuncher714/cartographer/module/griefdefender/ClaimBorderShader.java:32-43 | a claim is hidden iff the player is neither trusted nor the owner and the public flag is FALSE. A trusted player gets the first granted level's colour (public if none). The owner gets the owner colour; anyone else gets the public colour |
| ClaimBorders.PixelWidth | Cartographer2_Modules/GriefDefender/src/main/java/io/github/bananapuncher714/cartographer/module/griefdefender/ClaimBorderShader.java:50 | the pixel width is 2 iff the scale is below one block per pixel, else 1 |
| ClaimBorders.ThicknessFits | Cartographer2_Modules/GriefDefender/src/main/java/io/github/bananapuncher714/cartographer/module/griefdefender/ClaimBorderShader.java:50-53 | a border is positive and fits the claim side iff the scale is at least 1 or twice the scale fits the side |
| ClaimBorders.Borders | Cartographer2_Modules/GriefDefender/src/main/java/io/github/bananapuncher714/cartographer/module/griefdefender/ClaimBorderShader.java:55-73 | four rectangles in the claim's world and colour: north and west start at the lesser corner; south ends at minZ + length and east at minX + width; north and south span the width, west and east the length; thicknesses follow the scale |
| ClaimBorders.BordersInsideClaim | Cartographer2_Modules/GriefDefender/src/main/java/io/github/bananapuncher714/cartographer/module/griefdefender/ClaimBorderShader.java:50-73 | all four rectangles stay inside the claim iff the scale is at least 1 or twice the scale fits both sides |
| ClaimBorders.ClaimPixels | Cartographer2_Modules/GriefDefender/src/main/java/io/github/bananapuncher714/cartographer/module/griefdefender/ClaimBorderShader.java:46-73 | a claim contributes nothing iff it is hidden or its colour is absent, and otherwise at most four rectangles, all in its colour |
| ClaimBorders.PaintedPixels | Cartographer2_Modules/GriefDefender/src/main/java/io/github/bananapuncher714/cartographer/module/griefdefender/ClaimBorderShader.java:55-73 | a painted claim contributes exactly its four border rectangles |
| ClaimBorders.WorldPixels | Cartographer2_Modules/GriefDefender/src/main/java/io/github/bananapuncher714/cartographer/module/griefdefender/ClaimBorderShader.java:27-29 | nothing is drawn when the viewer's show-claims setting is off |
| ClaimBorders.WorldPixelsMembers | Cartographer2_Modules/GriefDefender/src/main/java/io/github/bananapuncher714/cartographer/module/griefdefender/ClaimBorderShader.java:31-76 | with claims shown, a rectangle is drawn iff some claim contributes it |
| ClaimBorders.WorldPixelsSize | Cartographer2_Modules/GriefDefender/src/main/java/io/github/bananapuncher714/cartographer/module/griefdefender/ClaimBorderShader.java:46-73 | at most four rectangles per claim are drawn |
| ClaimBorders.GetWorldPixels | Cartographer2_Modules/GriefDefender/src/main/java/io/github/bananapuncher714/cartographer/module/griefdefender/ClaimBorderShader.java:26-78 | the accumulating loop returns exactly `WorldPixels`, with at most four rectangles per claim |

## Left out

- The free-running async render thread, its `RUNNING` flag and the `ConcurrentHashMap` switch: they are off (`ASYNC_RENDER` is false) and exist only for concurrency.
- `FrameRenderTask`'s fork/join and the compositing of a frame: a submitted task is modelled only as the `FrameSubmitted` action, and its join as one `FrameSent` packet; queueing of chunk loads after a join is not modelled.
- Bukkit calls (player lookup, hand items, `callEvent`, `sendDataTo`, the scheduler registration in the constructor, image dithering): replaced by inputs and log actions.
- Menu byte displays and cursor types: a menu display is logged with its clamped cursor only.
- Java doubles are exact reals: no rounding, no NaN or infinities.
- The `long` tick counter is unbounded: its wrap-around after 2^63 ticks is not modelled.
- A `Location` holds only yaw and pitch; world and position are not used by the decisions modelled.
- `update` reads the clock once per entry in Java; the model uses one `now` per pass.
- Scheduler.GetScale: answers the raw stored zoom, not `ZoomScale.getScale` of it, because `ZoomScale` is not part of this model.
- Renderer.CartographerRenderer.GetScale: answers the raw stored zoom for the same reason.
- Scheduler.TickRender: requires a non-zero render delay when the server is not overloaded, because the Java modulo would throw there.
- Renderer.CartographerRenderer.TickRender: requires a non-zero render delay when the server is not overloaded, as above.
- Scheduler.SetPlayerMap: takes a present minimap; with `null` the Java code clears the entry's map and then throws a `NullPointerException`.
- Renderer.CartographerRenderer.SetPlayerMap: takes a present minimap, as above.
- `PlayerSetting` is a value stored in the map: aliasing of the Java object handed to menus and pixel providers is not modelled.
- The `render` branch for `TICK_RENDER` off is not modelled, since `TICK_RENDER` is a constant true.
- Event cancellation of the activate/deactivate events has no effect in the source and is not modelled; the interact event's cancellation is an input.
- `GriefDefenderModule` configuration loading: the seven colours are given as optional values.
- `WorldPixel` rectangles are values: two equal rectangles (north and west of a square claim, for instance) count once in the result set, whereas Java's set compares `WorldPixel` objects by whatever equality that class defines, which is not part of this model.
- ClaimBorders.GetWorldPixels: adds each claim's four rectangles with one set union instead of four separate adds, with the same resulting set.
- The world of a claim is its UUID; `Bukkit.getWorld` is not modelled.
- `CursorProviderDeathLocation` and `LocalCursorProvider` are not part of this model: the first is a single lookup in a store the renderer does not own, the second an interface without behaviour.
