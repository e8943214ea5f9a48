# World state engine of Terasology's `WorldProviderCoreImpl`

This project models the block, liquid and light state engine of Terasology's
world provider. The world is a set of chunks. Each block position holds a
block type, a block-light level, a sunlight level and a liquid state. The
engine offers:

- `setBlock`: a compare-and-swap block update. It first picks a view radius
  from the light behaviour of the old and new block types. When the view is
  available and the block is still the expected one, it writes the block, runs
  the light propagator, marks a dirty region and notifies every listener in
  list order.
- `setBlockForced`: an unconditional block write. It always asks for the large
  view and reports the block it read as the old one.
- `setLiquid`: a compare-and-swap liquid update inside the owning chunk.
- Total read accessors (`getBlock`, `getLight`, `getSunlight`,
  `getTotalLight`, `getLiquid`). They return air, 0 or the default liquid
  outside the vertical range and in unloaded chunks.
- A listener registry with list semantics: duplicates are kept, and removal
  takes out the first occurrence.

Files:

- `world_types.dfy` (module `WorldTypes`): positions, block types, light
  levels, liquids, regions, dirty marks, the constants `SIZE_Y = 256` and
  `MAX_LIGHT = 15`, and the view-radius rule.
- `listeners.dfy` (module `Listeners`): the registry's list operations, the
  notifications a change sends, and lemmas about both.
- `world.dfy` (module `World`): the class `WorldProviderCore`. Its fields are
  the chunk storage maps, the listener list, and four logs of what the engine
  did to its collaborators: views requested, changes handed to the light
  propagator, dirty marks set, and listener calls made.

The collaborators whose code is not part of this model are `const` fields that
the constructor fixes:

- `chunkOf` stands for `TeraMath.calcChunkPos`.
- `loaded` is the set of chunks for which `ChunkProvider.getChunk` is non-null.
- `viewReady(p, r)` says whether `getSubviewAroundBlock(p, r)` returns a view.
- `comparePropagation` stands for `LightingUtil.compareLightingPropagation`.
- `propagate` stands for `LightPropagator.update`. It takes the written world
  and returns the affected region plus the new block light and sunlight.

`Valid()` states the one assumption tying these together: a view around a
block contains that block's own chunk.

Storage is keyed by world position, not by chunk and local position. A
position missing from a map holds what fresh chunk storage holds: air, light
0, or the default liquid. `Chunk.SIZE_Y` and `Chunk.MAX_LIGHT` come from
Terasology's `Chunk` class, which is not part of this model.

The light propagator is called on every committed change
(`WorldProviderCoreImpl.java:160` and `:187`), whatever the old and new block
types are; their light attributes only choose the view radius. The model does
the same.

## Model

| member | source | states |
|---|---|---|
| WorldTypes.ViewRadius | src/main/java/org/terasology/world/WorldProviderCoreImpl.java:146-150 | The radius is MAX_LIGHT + 1 when the propagation comparison is not IDENTICAL or the luminances differ, and 1 otherwise; it is always at least 1. |
| World.WorldProviderCore.SetBlock | src/main/java/org/terasology/world/WorldProviderCoreImpl.java:138-175 | Same type in both slots: true, with no view requested and nothing changed. Otherwise one view of ViewRadius is requested. The result is true iff that view is available and the stored block equals oldType. On success the block is written, the propagator gets (p, type, oldType), dirty is marked with its region (or around p if that region is empty) and every listener is called in order. On failure no block, light, dirty mark or notification changes. No other position's block changes. |
| World.WorldProviderCore.SetBlockForced | src/main/java/org/terasology/world/WorldProviderCoreImpl.java:178-199 | Always requests radius MAX_LIGHT + 1. With the view available, p holds the new type afterwards, and the propagator and the listeners get the block read before the write as the old block. Without the view nothing changes. |
| World.WorldProviderCore.CommitBlock | src/main/java/org/terasology/world/WorldProviderCoreImpl.java:158-167 | Write, unconditional propagation, dirty marking chosen by the emptiness of the affected region, and notification; liquids, listeners and view requests stay unchanged. |
| World.WorldProviderCore.NotifyBlockChanged | src/main/java/org/terasology/world/WorldProviderCoreImpl.java:201-209 | The calls made are exactly one per registry entry, in registry order, each with (p, type, oldType). |
| World.WorldProviderCore.SetLiquid | src/main/java/org/terasology/world/WorldProviderCoreImpl.java:212-229 | True iff the owning chunk is loaded and the stored liquid equals oldState; only then does it become newState; otherwise the liquids are unchanged; other positions never change. |
| World.WorldProviderCore.GetLiquid | src/main/java/org/terasology/world/WorldProviderCoreImpl.java:232-245 | The default liquid for y outside [0, SIZE_Y) or an unloaded chunk, the stored liquid otherwise. |
| World.WorldProviderCore.GetBlock | src/main/java/org/terasology/world/WorldProviderCoreImpl.java:248-262 | Air for y outside [0, SIZE_Y) or an unloaded chunk, the stored block otherwise. |
| World.WorldProviderCore.GetLight | src/main/java/org/terasology/world/WorldProviderCoreImpl.java:265-279 | 0 for y outside [0, SIZE_Y) or an unloaded chunk, the stored block light otherwise. |
| World.WorldProviderCore.GetSunlight | src/main/java/org/terasology/world/WorldProviderCoreImpl.java:282-296 | 0 for y outside [0, SIZE_Y) or an unloaded chunk, the stored sunlight otherwise. |
| WorldTypes.Max | src/main/java/org/terasology/world/WorldProviderCoreImpl.java:309 | `Math.max` on two light values: the result is at least each argument and is one of them. |
| World.WorldProviderCore.GetTotalLight | src/main/java/org/terasology/world/WorldProviderCoreImpl.java:299-313 | At every position it equals max(GetSunlight, GetLight), so it is at least each of them; it is 0 wherever the reads do not reach storage. |
| World.WorldProviderCore.SetBlocks | src/main/java/org/terasology/world/WorldProviderCoreImpl.java:126-135 | The batch update always returns false and changes nothing. |
| World.WorldProviderCore.RegisterListener | src/main/java/org/terasology/world/WorldProviderCoreImpl.java:97-101 | The listener is appended; earlier entries, duplicates included, stay. |
| World.WorldProviderCore.UnregisterListener | src/main/java/org/terasology/world/WorldProviderCoreImpl.java:104-108 | The registry becomes RemoveFirst of the old registry. |
| World.WorldProviderCore.constructor | src/main/java/org/terasology/world/WorldProviderCoreImpl.java:57 | The registry starts empty; storage and collaborators are as given. |
| Listeners.NotificationsFor | src/main/java/org/terasology/world/WorldProviderCoreImpl.java:205-207 | One notification per registry entry, the i-th addressed to the i-th listener, all carrying the same (p, type, oldType). |
| Listeners.RemoveFirst | src/main/java/org/terasology/world/WorldProviderCoreImpl.java:106 | A listener that is not registered leaves the list unchanged; otherwise the list gets exactly one element shorter. |
| Listeners.RemoveFirstCount | src/main/java/org/terasology/world/WorldProviderCoreImpl.java:106 | Exactly one registration of the listener goes, and every other listener keeps its number of registrations. |
| Listeners.RemoveFirstAt | src/main/java/org/terasology/world/WorldProviderCoreImpl.java:106 | The removed entry is the first occurrence, and the entries before and after it keep their order. |
| Listeners.RegisterTwiceUnregisterOnce | src/main/java/org/terasology/world/WorldProviderCoreImpl.java:97-108 | Registering twice and unregistering once leaves exactly one more registration. A listener that was not registered before ends up registered once, at the end of the list. |
| Listeners.UnregisteredGetsNoCalls | src/main/java/org/terasology/world/WorldProviderCoreImpl.java:104-108 | A listener registered at most once gets no call from a change notified after it is unregistered. |

## Left out

- Locking (`chunkView.lock/unlock`, `chunk.lock/unlock`, `synchronized (listeners)`): each operation is one atomic sequential step; concurrency is not modelled.
- Light propagation internals: `LightPropagator.update` is the opaque `propagate` collaborator. Nothing is said about which positions it may touch or about the view radius bounding it.
- `ChunkProvider` view construction, chunk loading and unloading: view availability and the loaded set are fixed for the engine's lifetime and given to the constructor.
- `ChunkView`'s own bounds handling: a view reads and writes chunk storage at the world position directly.
- `TeraMath.calcChunkPos` and `calcBlockPos`: `chunkOf` is an opaque collaborator, and storage is keyed by world position. The model assumes that a world position and its (chunk, local position) pair name the same storage slot.
- `LightingUtil.compareLightingPropagation`: an opaque collaborator. Its outcomes other than IDENTICAL are collapsed into one case, because the engine tests only for IDENTICAL.
- `Region3i` and `LiquidData` internals: a region is a box with a minimum corner and an extent, empty when some extent is 0. A liquid state is an opaque value compared by equality, with a distinguished default.
- Null arguments: Java `null` block types, liquid states and listeners are not modelled.
- Exceptions from collaborators: `propagate` is total and a listener call only appends to `notified`, so neither can fail in the model. In the source both run inside `try … finally` (lines 153-172, 183-197), and the model does not capture their failure paths. If `LightPropagator.update` throws (line 160 or 187), the block written at line 158 or 185 stays written, and the dirty mark and every notification are skipped. If a listener's `onBlockChanged` throws (line 206), the write and the dirty mark (lines 161-165, 188-192) stay, the listeners before it have been called, and the listeners after it are skipped. In both cases the exception reaches the caller: from `setBlock` instead of `true`, from `setBlockForced` instead of a normal return.
- Out-of-height storage slots: the storage maps may hold keys with y outside [0, SIZE_Y), given to the constructor or written by `SetBlockForced`, `SetBlock` or `SetLiquid` at such a position, since the chunk view's and chunk's own bounds handling is not modelled. No read accessor sees those slots: they always return the sentinel there. The block setters do read them, though: `SetBlock` compares against, and `SetBlockForced` reports as the old block, the stored value at such a position.
- Listener callbacks are recorded as calls. What a listener does when called, including re-entering the registry, is not modelled.
- `logger.warn` diagnostics: logging only, with no effect on control flow.
- Fog (`getFog`, Perlin noise, floats), world time, the biome provider, and the title, seed and `WorldInfo` plumbing of the constructors: not state-engine logic.
- `dispose`, `getLocalView`, `getWorldViewAround`, `isBlockRelevant`: one-line forwards to `ChunkProvider`.
- `CharacterMover` is a single-method interface with no body and is not part of this model.
